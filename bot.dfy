/**
 * The package-level state of the bot and the functions of main.go that
 * change it, step by step as the Go code does. The `stats` collection is a
 * map from thread id to record (the unique index on thread_id keeps one
 * record per thread), the global `messages` slice is a sequence field, and
 * the bot's sends are recorded in `sent`. Each method is proved to agree
 * with the specification functions of module Crawl.
 */
module XfBot {
  import opened Wrappers
  import opened Strconv
  import opened Links
  import opened Crawl

  class Bot {
    /** The `stats` collection: thread id to {page, post_id}. */
    var store: map<int, Stat>
    /** The global `messages` queue, waiting to be published. */
    var messages: seq<Message>
    /** Every text handed to the bot's Send, in order. */
    var sent: seq<string>

    constructor (initial: map<int, Stat>)
      ensures store == initial && messages == [] && sent == []
    {
      store := initial;
      messages := [];
      sent := [];
    }

    function Snapshot(): State
      reads this
    {
      State(store, messages, sent)
    }

    /** getLastInfo: the thread's record, or None where the Go code calls log.Fatal. */
    method GetLastInfo(threadId: int) returns (r: Option<Stat>)
      ensures r.Some? <==> threadId in store
      ensures r.Some? ==> r.value == store[threadId]
    {
      if threadId in store {
        r := Some(store[threadId]);
      } else {
        r := None;
      }
    }

    /**
     * initCollection: inserts {page 1, post_id 0} for the thread, then builds
     * a unique index on thread_id. When the thread already has a record, the
     * collection gains a second record for it and building the index fails,
     * so the Go code calls log.Fatal: ok is false. The map keeps one record
     * per thread, so the second record is not represented and the map is
     * left as it was.
     */
    method InitCollection(threadId: int) returns (ok: bool)
      modifies this`store
      ensures ok <==> threadId !in old(store)
      ensures store == if ok then Inserted(old(store), threadId).value else old(store)
    {
      ok := threadId !in store;
      if ok {
        store := store[threadId := Stat(1, 0)];
      }
    }

    /** updateInfo: find-one-and-update without upsert. */
    method UpdateInfo(threadId: int, pageNo: int, postId: int)
      modifies this`store
      ensures store == Updated(old(store), threadId, pageNo, postId)
    {
      if threadId in store {
        store := store[threadId := Stat(pageNo, postId)];
      }
    }

    /**
     * fetchPage: fetches page pageNo and walks its articles in document
     * order, queueing every post whose id is above storedPostId and keeping
     * the id of the last one; then reads the page count from the page
     * navigation. A failed fetch returns id 0 and page count 1. panicked is
     * set where slicing a short `data-content` panics.
     */
    method FetchPage(web: Web, threadLink: string, pageNo: int, storedPostId: int)
      returns (panicked: bool, lastId: int, newPage: int)
      modifies this`messages
      ensures messages == old(messages) + ScanPage(web, threadLink, pageNo, storedPostId).queued
      ensures panicked <==> ScanPage(web, threadLink, pageNo, storedPostId).Crashed?
      ensures !panicked ==> lastId == ScanPage(web, threadLink, pageNo, storedPostId).lastId
      ensures !panicked ==> newPage == ScanPage(web, threadLink, pageNo, storedPostId).newPage
    {
      var url := BuildXfLinkWithPageParam(BuildVozLink(threadLink), pageNo);
      panicked, lastId, newPage := false, 0, 1;
      if url in web {
        var arts := web[url].articles;
        var i := 0;
        while i < |arts|
          invariant 0 <= i <= |arts|
          invariant HaveIds(arts, i)
          invariant messages == old(messages) + Queued(arts, i, storedPostId)
          invariant lastId == LastId(arts, i)
        {
          var s := arts[i];
          if |s.dataContent| < 5 {
            IntactStopsAt(arts, i);
            panicked := true;
            return;
          }
          var postId := IdOf(s);
          lastId := postId;
          if postId > storedPostId {
            messages := messages + [ToMessage(s)];
          }
          i := i + 1;
        }
        IntactStopsAt(arts, i);
        newPage := Atoi(web[url].pageNav);
      }
    }

    /**
     * fetchMessages: one crawl pass for the thread, as written. Reads the
     * record, fetches the stored page, walks pages storedPageNo..newestPage
     * when the site reports more pages, writes back the page count and the
     * id the last fetch returned, sends the whole queue in order and clears
     * it. Nothing is written or sent when the first fetch returns id 0.
     */
    method FetchMessages(web: Web, threadLink: string) returns (outcome: Outcome)
      modifies this
      ensures (Snapshot(), outcome) == Run(old(Snapshot()), web, threadLink)
    {
      var tid := ThreadIdOf(threadLink);
      if tid.None? {
        return NoThreadId;
      }
      var threadId := tid.value;
      var info := GetLastInfo(threadId);
      if info.None? {
        return NoRecord;
      }
      var storedPageNo, lastPostId := info.value.page, info.value.postId;
      if lastPostId == 0 {
        var inserted := InitCollection(threadId);
        if !inserted {
          return DuplicateKey;
        }
      }

      var panicked, newestPostId, newestPage := FetchPage(web, threadLink, storedPageNo, lastPostId);
      if panicked {
        return PostIdPanic;
      }
      if newestPostId == 0 {
        return Idle;
      }
      if storedPageNo < newestPage {
        if newestPage == MaxInt64 {
          return Hangs;
        }
        panicked, newestPostId := FetchPages(web, threadLink, storedPageNo, newestPage, lastPostId, newestPostId);
        if panicked {
          return PostIdPanic;
        }
      } else {
        assert messages + [] == messages;
      }

      UpdateInfo(threadId, newestPage, newestPostId);
      Publish(threadId);
      outcome := Published;
    }

    /**
     * The page loop of fetchMessages: pages lo..hi in increasing order, each
     * fetched once, every returned id replacing the previous one. At
     * hi == MaxInt64 the Go loop never ends, so callers stop before.
     */
    method FetchPages(web: Web, threadLink: string, lo: int, hi: int, storedPostId: int, lastId: int)
      returns (panicked: bool, newestPostId: int)
      requires hi < MaxInt64
      modifies this`messages
      ensures messages == old(messages) + SweepPages(web, threadLink, lo, hi, storedPostId, lastId).queued
      ensures panicked <==> SweepPages(web, threadLink, lo, hi, storedPostId, lastId).SweepCrashed?
      ensures !panicked ==> newestPostId == SweepPages(web, threadLink, lo, hi, storedPostId, lastId).lastId
    {
      newestPostId := lastId;
      var i := lo;
      while i <= hi
        invariant i <= hi + 1 || i == lo
        invariant Prepend(messages, SweepPages(web, threadLink, i, hi, storedPostId, newestPostId))
               == Prepend(old(messages), SweepPages(web, threadLink, lo, hi, storedPostId, lastId))
        decreases hi - i
      {
        ghost var before := messages;
        var crashed, id, _ := FetchPage(web, threadLink, i, storedPostId);
        if crashed {
          return true, newestPostId;
        }
        PrependTwice(before, ScanPage(web, threadLink, i, storedPostId).queued,
                     SweepPages(web, threadLink, i + 1, hi, storedPostId, id));
        newestPostId := id;
        i := i + 1;
      }
      panicked := false;
    }

    /** The publishing loop: every queued message is sent once, in queue order, and the queue is emptied. */
    method Publish(threadId: int)
      modifies this`messages, this`sent
      ensures sent == old(sent) + Render(threadId, old(messages))
      ensures messages == []
    {
      var j := 0;
      while j < |messages|
        invariant 0 <= j <= |messages|
        invariant messages == old(messages)
        invariant sent == old(sent) + Render(threadId, messages[..j])
      {
        var el := messages[j];
        assert messages[..j + 1][..j] == messages[..j];
        sent := sent + [MakeMessage(threadId, el.body, el.url, el.time, el.createdBy.name)];
        j := j + 1;
      }
      assert messages[..j] == messages;
      messages := [];
    }
  }
}
