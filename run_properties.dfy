/**
 * Properties of whole fetchMessages passes, stated on function Run of
 * module Crawl (method XfBot.Bot.FetchMessages is proved equal to it): how
 * each abort leaves the state, what a published pass writes and sends, and
 * what the code as written does at its edges: the stored page queued
 * twice, a watermark of 0 after a failed last page that wedges every later
 * pass, a page count that falls to 0, and a quiet pass over a thread that
 * has not changed.
 */
module RunProperties {
  import opened Wrappers
  import opened Strconv
  import opened Links
  import opened Crawl

  /** The link names thread t, and t has a record in the collection. */
  predicate HasRecord(st: State, threadLink: string, t: int) {
    ThreadIdOf(threadLink) == Some(t) && t in st.store
  }

  /**
   * A record with post_id 0 sends the pass into initCollection, which inserts
   * a second record for the thread and then fails to build the unique index:
   * the pass aborts before fetching, queueing or sending anything. The map
   * holds one record per thread, so the duplicate record is not represented.
   */
  lemma StoredZeroAborts(st: State, web: Web, threadLink: string, t: int)
    requires HasRecord(st, threadLink, t) && st.store[t].postId == 0
    ensures Run(st, web, threadLink) == (st, DuplicateKey)
  {
  }

  /** A failed fetch of the stored page returns id 0: nothing is queued, written or sent. */
  lemma FailedFetchIdles(st: State, web: Web, threadLink: string, t: int)
    requires HasRecord(st, threadLink, t) && st.store[t].postId != 0
    requires PageUrl(threadLink, st.store[t].page) !in web
    ensures Run(st, web, threadLink) == (st, Idle)
  {
    assert st.messages + [] == st.messages;
  }

  /** The scan of the stored page that opens a pass over thread t. */
  function First(st: State, web: Web, threadLink: string, t: int): PageScan
    requires t in st.store
  {
    ScanPage(web, threadLink, st.store[t].page, st.store[t].postId)
  }

  /** What the page loop adds after the first scan: nothing, unless the site reports more pages than the stored one. */
  function Continued(st: State, web: Web, threadLink: string, t: int): Sweep
    requires t in st.store && First(st, web, threadLink, t).Scanned?
  {
    var rec := st.store[t];
    var first := First(st, web, threadLink, t);
    if rec.page < first.newPage
    then SweepPages(web, threadLink, rec.page, first.newPage, rec.postId, first.lastId)
    else Swept([], first.lastId)
  }

  /**
   * Once the stored page has been scanned without a panic, the pass ends
   * Idle exactly when that scan returned id 0; it then writes nothing and
   * sends nothing, but the new posts of the stored page stay queued for the
   * next pass.
   */
  lemma IdleOnlyQueues(st: State, web: Web, threadLink: string, t: int)
    requires HasRecord(st, threadLink, t) && st.store[t].postId != 0
    requires First(st, web, threadLink, t).Scanned?
    ensures Run(st, web, threadLink).1 == Idle <==> First(st, web, threadLink, t).lastId == 0
    ensures First(st, web, threadLink, t).lastId == 0 ==>
              Run(st, web, threadLink)
              == (st.(messages := st.messages + First(st, web, threadLink, t).queued), Idle)
  {
  }

  /** A published pass in terms of its first scan and the page loop after it. */
  lemma PublishedShape(st: State, web: Web, threadLink: string, t: int)
    requires HasRecord(st, threadLink, t)
    requires Run(st, web, threadLink).1 == Published
    ensures st.store[t].postId != 0
    ensures First(st, web, threadLink, t).Scanned? && First(st, web, threadLink, t).lastId != 0
    ensures Continued(st, web, threadLink, t).Swept?
    ensures Run(st, web, threadLink).0
         == State(Updated(st.store, t, First(st, web, threadLink, t).newPage, Continued(st, web, threadLink, t).lastId),
                  [],
                  st.sent + Render(t, st.messages + First(st, web, threadLink, t).queued + Continued(st, web, threadLink, t).queued))
  {
  }

  /** Everything the first scan and the page loop queue has an id above the stored post id. */
  lemma PassQueuesOnlyNewPosts(st: State, web: Web, threadLink: string, t: int)
    requires t in st.store && First(st, web, threadLink, t).Scanned?
    ensures AllNewerThan(First(st, web, threadLink, t).queued + Continued(st, web, threadLink, t).queued, st.store[t].postId)
  {
    var rec := st.store[t];
    var first := First(st, web, threadLink, t);
    ScanPageQueuesOnlyNewPosts(web, threadLink, rec.page, rec.postId);
    SweepQueuesOnlyNewPosts(web, threadLink, rec.page, first.newPage, rec.postId, first.lastId);
    NewerConcat(first.queued, Continued(st, web, threadLink, t).queued, rec.postId);
  }

  /**
   * A published pass empties the queue; it sends what was queued before
   * it first, in order, and after that only posts above the stored post id.
   */
  lemma PublishedSendsQueueThenNewPosts(st: State, web: Web, threadLink: string, t: int)
    requires HasRecord(st, threadLink, t)
    requires Run(st, web, threadLink).1 == Published
    ensures Run(st, web, threadLink).0.messages == []
    ensures exists q :: AllNewerThan(q, st.store[t].postId)
                     && Run(st, web, threadLink).0.sent == st.sent + Render(t, st.messages) + Render(t, q)
  {
    PublishedShape(st, web, threadLink, t);
    PassQueuesOnlyNewPosts(st, web, threadLink, t);
    var first, more := First(st, web, threadLink, t).queued, Continued(st, web, threadLink, t).queued;
    SendAfterQueue(t, st.sent, st.messages, first, more);
    assert AllNewerThan(first + more, st.store[t].postId);
  }

  /** Sending a queue extended twice sends the old queue, then the two extensions together. */
  lemma SendAfterQueue(t: int, sent: seq<string>, m: seq<Message>, a: seq<Message>, b: seq<Message>)
    ensures sent + Render(t, m + a + b) == sent + Render(t, m) + Render(t, a + b)
  {
    var x, y := Render(t, m), Render(t, a + b);
    calc {
      Render(t, m + a + b);
      { assert m + a + b == m + (a + b); }
      Render(t, m + (a + b));
      { RenderAppend(t, m, a + b); }
      x + y;
    }
    assert sent + (x + y) == sent + x + y;
  }

  /**
   * A published pass writes back the page count the stored page reported
   * and the id the last fetch returned: that of the stored page when the
   * site reports no more pages, otherwise that of the newest page, whatever
   * ids came before it.
   */
  lemma PublishedWatermark(st: State, web: Web, threadLink: string, t: int)
    requires HasRecord(st, threadLink, t)
    requires Run(st, web, threadLink).1 == Published
    ensures First(st, web, threadLink, t).Scanned?
    ensures var first := First(st, web, threadLink, t);
            st.store[t].page < first.newPage ==>
              ScanPage(web, threadLink, first.newPage, st.store[t].postId).Scanned?
              && Run(st, web, threadLink).0.store
                 == Updated(st.store, t, first.newPage, ScanPage(web, threadLink, first.newPage, st.store[t].postId).lastId)
    ensures var first := First(st, web, threadLink, t);
            first.newPage <= st.store[t].page ==>
              Run(st, web, threadLink).0.store == Updated(st.store, t, first.newPage, first.lastId)
  {
    PublishedShape(st, web, threadLink, t);
    var rec := st.store[t];
    var first := First(st, web, threadLink, t);
    if rec.page < first.newPage {
      SweepLastId(web, threadLink, rec.page, first.newPage, rec.postId, first.lastId);
    }
  }

  /** When the site reports more pages, the loop opens with a second scan of the stored page. */
  lemma LoopRescansStoredPage(st: State, web: Web, threadLink: string, t: int)
    requires t in st.store && First(st, web, threadLink, t).Scanned?
    requires st.store[t].page < First(st, web, threadLink, t).newPage
    ensures var first := First(st, web, threadLink, t);
            Continued(st, web, threadLink, t)
            == Prepend(first.queued, SweepPages(web, threadLink, st.store[t].page + 1, first.newPage, st.store[t].postId, first.lastId))
  {
  }

  /**
   * When the site reports more pages than the stored one, the loop starts
   * at the stored page again: its new posts are queued, and sent, twice.
   */
  lemma StoredPageQueuedTwice(st: State, web: Web, threadLink: string, t: int)
    requires HasRecord(st, threadLink, t)
    requires Run(st, web, threadLink).1 == Published
    requires First(st, web, threadLink, t).Scanned? && st.store[t].page < First(st, web, threadLink, t).newPage
    ensures var first := First(st, web, threadLink, t);
            var rest := SweepPages(web, threadLink, st.store[t].page + 1, first.newPage, st.store[t].postId, first.lastId);
            Run(st, web, threadLink).0.sent
              == st.sent + Render(t, st.messages + first.queued + first.queued + rest.queued)
  {
    var rec := st.store[t];
    var first := First(st, web, threadLink, t);
    var rest := SweepPages(web, threadLink, rec.page + 1, first.newPage, rec.postId, first.lastId);
    var more := Continued(st, web, threadLink, t).queued;
    assert more == first.queued + rest.queued by {
      LoopRescansStoredPage(st, web, threadLink, t);
      assert Continued(st, web, threadLink, t) == Prepend(first.queued, rest);
    }
    var sent := Run(st, web, threadLink).0.sent;
    assert sent == st.sent + Render(t, st.messages + first.queued + more) by {
      PublishedShape(st, web, threadLink, t);
    }
    SendTwice(t, st.sent, sent, st.messages, first.queued, more, rest.queued);
  }

  /** Sending m + a + more, where more repeats a ahead of rest, sends a twice. */
  lemma SendTwice(t: int, sent0: seq<string>, sent: seq<string>, m: seq<Message>, a: seq<Message>,
                  more: seq<Message>, rest: seq<Message>)
    requires more == a + rest
    requires sent == sent0 + Render(t, m + a + more)
    ensures sent == sent0 + Render(t, m + a + a + rest)
  {
    QueueAssoc(m, a, a, rest);
  }

  lemma QueueAssoc(m: seq<Message>, a: seq<Message>, b: seq<Message>, c: seq<Message>)
    ensures m + a + (b + c) == m + a + b + c
  {
  }

  /**
   * When the fetch of the newest page fails, the loop ends with id 0, the
   * pass writes post_id 0, and from then on every pass over the thread
   * aborts in initCollection, whatever the site serves.
   */
  lemma FailedLastPageWedgesThread(st: State, web: Web, later: Web, threadLink: string, t: int)
    requires HasRecord(st, threadLink, t)
    requires Run(st, web, threadLink).1 == Published
    requires st.store[t].page < ScanPage(web, threadLink, st.store[t].page, st.store[t].postId).newPage
    requires PageUrl(threadLink, ScanPage(web, threadLink, st.store[t].page, st.store[t].postId).newPage) !in web
    ensures Run(st, web, threadLink).0.store[t].postId == 0
    ensures Run(Run(st, web, threadLink).0, later, threadLink).1 == DuplicateKey
  {
    var rec := st.store[t];
    var first := ScanPage(web, threadLink, rec.page, rec.postId);
    FailedLastPageZeroesId(web, threadLink, rec.page, first.newPage, rec.postId, first.lastId);
    StoredZeroAborts(Run(st, web, threadLink).0, later, threadLink, t);
  }

  /**
   * A stored page without page navigation reads as zero pages: a pass that
   * finds a post there writes back page 0.
   */
  lemma MissingPageNavZeroesPage(st: State, web: Web, threadLink: string, t: int)
    requires HasRecord(st, threadLink, t) && st.store[t].postId != 0 && st.store[t].page >= 0
    requires PageUrl(threadLink, st.store[t].page) in web
    requires var doc := web[PageUrl(threadLink, st.store[t].page)];
             doc.pageNav == [] && HaveIds(doc.articles, |doc.articles|)
             && LastId(doc.articles, |doc.articles|) != 0
    ensures Run(st, web, threadLink).1 == Published
    ensures Run(st, web, threadLink).0.store[t].page == 0
  {
    var arts := web[PageUrl(threadLink, st.store[t].page)].articles;
    IntactStopsAt(arts, |arts|);
  }

  /** With every id at or below storedPostId, nothing is queued. */
  lemma {:induction false} QueuedNothingNew(arts: seq<Article>, n: nat, storedPostId: int)
    requires n <= |arts| && HaveIds(arts, n)
    requires forall j :: 0 <= j < n ==> IdOf(arts[j]) <= storedPostId
    ensures Queued(arts, n, storedPostId) == []
    decreases n
  {
    if n > 0 {
      QueuedNothingNew(arts, n - 1, storedPostId);
    }
  }

  /**
   * A pass over a thread that has not changed since the record was
   * written (same page count, no post above the stored id, the same last
   * post) with nothing queued changes nothing and sends nothing.
   */
  lemma UnchangedThreadIsQuiet(st: State, web: Web, threadLink: string, t: int)
    requires HasRecord(st, threadLink, t) && st.store[t].postId != 0 && st.messages == []
    requires PageUrl(threadLink, st.store[t].page) in web
    requires var doc := web[PageUrl(threadLink, st.store[t].page)];
             HaveIds(doc.articles, |doc.articles|)
             && (forall j :: 0 <= j < |doc.articles| ==> IdOf(doc.articles[j]) <= st.store[t].postId)
             && LastId(doc.articles, |doc.articles|) == st.store[t].postId
             && Atoi(doc.pageNav) == st.store[t].page
    ensures Run(st, web, threadLink) == (st, Published)
  {
    var rec := st.store[t];
    var arts := web[PageUrl(threadLink, rec.page)].articles;
    IntactStopsAt(arts, |arts|);
    QueuedNothingNew(arts, |arts|, rec.postId);
    assert Updated(st.store, t, rec.page, rec.postId) == st.store;
    assert st.messages + [] + [] == [];
    assert st.sent + Render(t, []) == st.sent;
  }

  /**
   * Running the pass again over the same site after it published sends
   * nothing and changes nothing, provided the page the record now names
   * still reports itself as the newest, holds no id above its last one,
   * and that last id is the non-zero one just written.
   */
  lemma SecondPassIsQuiet(st: State, web: Web, threadLink: string, t: int)
    requires HasRecord(st, threadLink, t)
    requires Run(st, web, threadLink).1 == Published
    requires var rec := Run(st, web, threadLink).0.store[t];
             var url := PageUrl(threadLink, rec.page);
             rec.postId != 0 && url in web
             && HaveIds(web[url].articles, |web[url].articles|)
             && (forall j :: 0 <= j < |web[url].articles| ==> IdOf(web[url].articles[j]) <= rec.postId)
             && LastId(web[url].articles, |web[url].articles|) == rec.postId
             && Atoi(web[url].pageNav) == rec.page
    ensures Run(Run(st, web, threadLink).0, web, threadLink) == (Run(st, web, threadLink).0, Published)
  {
    PublishedShape(st, web, threadLink, t);
    UnchangedThreadIsQuiet(Run(st, web, threadLink).0, web, threadLink, t);
  }
}
