/**
 * The pure string helpers of main.go: the thread page URL, the thread id
 * taken from the configured thread link, the post id taken from an
 * article's `data-content` attribute, and the text of a channel message.
 */
module Links {
  import opened Wrappers
  import opened Strconv

  /** The XenForo 2 path segment that selects a page of a thread. */
  const PageParam: string := "page-"

  const VozUrl: string := "https://voz.vn"

  /** The thread's address on the forum. */
  function BuildVozLink(threadLink: string): (r: string)
    ensures |r| == |VozUrl| + 3 + |threadLink|
    ensures r[|VozUrl| + 3..] == threadLink
  {
    VozUrl + "/t/" + threadLink
  }

  /** The address of page pageNo of a thread. */
  function BuildXfLinkWithPageParam(xfThreadLink: string, pageNo: int): (r: string)
    ensures |r| == |xfThreadLink| + 1 + |PageParam| + |Itoa(pageNo)|
    ensures r[..|xfThreadLink|] == xfThreadLink
  {
    xfThreadLink + "/" + PageParam + Itoa(pageNo)
  }

  /** The address fetchPage requests for page pageNo of the thread. */
  function PageUrl(threadLink: string, pageNo: int): string {
    BuildXfLinkWithPageParam(BuildVozLink(threadLink), pageNo)
  }

  /** The page address is the forum's thread path followed by `/page-` and the page number in decimal. */
  lemma PageUrlShape(threadLink: string, pageNo: int)
    ensures PageUrl(threadLink, pageNo) == "https://voz.vn/t/" + threadLink + "/page-" + Itoa(pageNo)
  {
    assert VozUrl + "/t/" == "https://voz.vn/t/";
    assert "/" + PageParam == "/page-";
  }

  /** The page number is everything after the thread address and `/page-`. */
  lemma PageUrlSuffix(threadLink: string, pageNo: int)
    ensures |PageUrl(threadLink, pageNo)| == |VozUrl| + 3 + |threadLink| + 1 + |PageParam| + |Itoa(pageNo)|
    ensures PageUrl(threadLink, pageNo)[|VozUrl| + 3 + |threadLink| + 1 + |PageParam|..] == Itoa(pageNo)
  {
    var head := BuildVozLink(threadLink) + "/" + PageParam;
    assert PageUrl(threadLink, pageNo) == head + Itoa(pageNo);
    assert (head + Itoa(pageNo))[|head|..] == Itoa(pageNo);
  }

  /** Two pages of one thread never share an address, so each page number names its own document. */
  lemma PageUrlInjective(threadLink: string, n: int, m: int)
    requires IsInt64(n) && IsInt64(m)
    requires PageUrl(threadLink, n) == PageUrl(threadLink, m)
    ensures n == m
  {
    PageUrlSuffix(threadLink, n);
    PageUrlSuffix(threadLink, m);
    ItoaInjective(n, m);
  }

  /** Position of the first occurrence of c in s. */
  function IndexOf(s: string, c: char): (r: Option<nat>)
    ensures r.Some? ==> r.value < |s| && s[r.value] == c && c !in s[..r.value]
    ensures r.None? ==> c !in s
    decreases |s|
  {
    if s == [] then None
    else if s[0] == c then Some(0)
    else
      match IndexOf(s[1..], c)
      case None => None
      case Some(i) => Some(i + 1)
  }

  /**
   * The second field of threadLink split at '.', that is the text between
   * the first '.' and the next one (or the end). None when threadLink has
   * no '.': indexing the split result then panics.
   */
  function SecondField(threadLink: string): (r: Option<string>)
    ensures r.None? <==> '.' !in threadLink
    ensures r.Some? ==> '.' !in r.value
  {
    match IndexOf(threadLink, '.')
    case None => None
    case Some(i) =>
      var rest := threadLink[i + 1..];
      match IndexOf(rest, '.')
      case None => Some(rest)
      case Some(j) => Some(rest[..j])
  }

  /** The thread id fetchMessages derives from its thread link; None stands for the panic. */
  function ThreadIdOf(threadLink: string): (r: Option<int>)
    ensures r.None? <==> '.' !in threadLink
    ensures r.Some? ==> IsInt64(r.value)
  {
    match SecondField(threadLink)
    case None => None
    case Some(field) => Some(ParseInt(field, 0))
  }

  /** IndexOf finds the first occurrence. */
  lemma {:induction false} IndexOfFirst(s: string, c: char, k: nat)
    requires k < |s| && s[k] == c && c !in s[..k]
    ensures IndexOf(s, c) == Some(k)
    decreases k
  {
    if k > 0 {
      assert s[0] == s[..k][0];
      assert s[1..][..k - 1] == s[..k][1..];
      IndexOfFirst(s[1..], c, k - 1);
    }
  }

  /** The second '.'-separated field of `<slug>.<field>` or `<slug>.<field>.<more>` is field. */
  lemma SecondFieldOf(slug: string, field: string, tail: string)
    requires '.' !in slug && '.' !in field
    requires tail == [] || tail[0] == '.'
    ensures SecondField(slug + "." + field + tail) == Some(field)
  {
    var link := slug + "." + field + tail;
    assert link[..|slug|] == slug && link[|slug|] == '.';
    IndexOfFirst(link, '.', |slug|);
    var rest := link[|slug| + 1..];
    assert rest == field + tail;
    if tail != [] {
      assert rest[..|field|] == field && rest[|field|] == '.';
      IndexOfFirst(rest, '.', |field|);
    } else {
      assert rest == field;
    }
  }

  /** A link of the form `<slug>.<id>` or `<slug>.<id>.<more>` yields the id, for any slug without a '.'. */
  lemma ThreadIdRoundTrip(slug: string, id: int, more: Option<string>)
    requires '.' !in slug
    requires IsInt64(id)
    ensures ThreadIdOf(slug + "." + Itoa(id) + (if more.Some? then "." + more.value else "")) == Some(id)
  {
    ItoaChars(id);
    SecondFieldOf(slug, Itoa(id), if more.Some? then "." + more.value else "");
    ParseIntItoa(id, 0);
  }

  /** fetchPage drops the first five characters of `data-content` and parses the rest. */
  function PostIdOf(dataContent: string): (r: int)
    requires |dataContent| >= 5
    ensures IsInt64(r)
  {
    ParseInt(dataContent[5..], 0)
  }

  /** XenForo's `post-<id>` attribute value yields the id. */
  lemma PostIdRoundTrip(prefix: string, id: int)
    requires |prefix| == 5
    requires IsInt64(id)
    ensures PostIdOf(prefix + Itoa(id)) == id
  {
    assert (prefix + Itoa(id))[5..] == Itoa(id);
    ParseIntItoa(id, 0);
  }

  /** A `data-content` with nothing readable after its first five characters yields post id 0. */
  lemma PostIdUnreadable(dataContent: string)
    requires |dataContent| >= 5
    requires |dataContent| == 5 || (DigitVal(dataContent[5]) >= 10 && dataContent[5] !in "+-_")
    ensures PostIdOf(dataContent) == 0
  {
    if |dataContent| > 5 {
      ParseIntNotANumber(dataContent[5..], 0);
    }
  }

  /**
   * Whatever makes the number after the first five characters of
   * `data-content` unreadable (a stray letter, a doubled underscore, a bare
   * base prefix), the post id is 0.
   */
  lemma PostIdSyntaxError(dataContent: string)
    requires |dataContent| >= 5
    requires ParseUint(Unsigned(dataContent[5..]), 0) == SyntaxError
    ensures PostIdOf(dataContent) == 0
  {
    ParseIntSyntaxError(dataContent[5..], 0);
  }

  /** A trailing letter: `post-12x`, or any other five characters before `12x`, has post id 0. */
  lemma PostIdTrailingLetter(prefix: string)
    requires |prefix| == 5
    ensures PostIdOf(prefix + "12x") == 0
  {
    var dc := prefix + "12x";
    assert ParseUint(Unsigned(dc[5..]), 0) == SyntaxError by {
      assert dc[5..] == "12x";
      assert Unsigned("12x") == "12x";
      ParseUintTrailingLetter();
    }
    PostIdSyntaxError(dc);
  }

  /** A doubled underscore: `post-1__2`, or any other five characters before `1__2`, has post id 0. */
  lemma PostIdDoubledUnderscore(prefix: string)
    requires |prefix| == 5
    ensures PostIdOf(prefix + "1__2") == 0
  {
    var dc := prefix + "1__2";
    assert ParseUint(Unsigned(dc[5..]), 0) == SyntaxError by {
      assert dc[5..] == "1__2";
      assert Unsigned("1__2") == "1__2";
      ParseUintDoubledUnderscore();
    }
    PostIdSyntaxError(dc);
  }

  /** A base prefix without digits: `post-0x`, or any other five characters before `0x`, has post id 0. */
  lemma PostIdBarePrefix(prefix: string)
    requires |prefix| == 5
    ensures PostIdOf(prefix + "0x") == 0
  {
    var dc := prefix + "0x";
    assert ParseUint(Unsigned(dc[5..]), 0) == SyntaxError by {
      assert dc[5..] == "0x";
      assert Unsigned("0x") == "0x";
      ParseUintBarePrefix();
    }
    PostIdSyntaxError(dc);
  }

  /**
   * The channel message for one post: a header line with the thread id,
   * the time and author, the body, and the permalink last. The time is
   * written as its Unix seconds in decimal.
   */
  function MakeMessage(threadId: int, title: string, link: string, time: int, author: string): (r: string)
    ensures |r| == 33 + |Itoa(threadId)| + |Itoa(time)| + |author| + |title| + |link|
  {
    "Thread #" + Itoa(threadId) + "\nOn " + Itoa(time) + ", " + author + " said: \n" + title + "\nSee more: " + link
  }

  /** A prefix of x stays a prefix when more is appended. */
  lemma PrefixGrows(p: string, x: string, y: string)
    requires p <= x
    ensures p <= x + y
  {
    assert (x + y)[..|x|] == x;
  }

  /** Every channel message starts with `Thread #<id>` and a line break. */
  lemma MakeMessageHeader(threadId: int, title: string, link: string, time: int, author: string)
    ensures "Thread #" + Itoa(threadId) + "\n" <= MakeMessage(threadId, title, link, time, author)
  {
    var head := "Thread #" + Itoa(threadId) + "\n";
    var p := "Thread #" + Itoa(threadId) + "\nOn ";
    assert head <= p;
    PrefixGrows(head, p, Itoa(time));
    PrefixGrows(head, p + Itoa(time), ", ");
    PrefixGrows(head, p + Itoa(time) + ", ", author);
    PrefixGrows(head, p + Itoa(time) + ", " + author, " said: \n");
    PrefixGrows(head, p + Itoa(time) + ", " + author + " said: \n", title);
    PrefixGrows(head, p + Itoa(time) + ", " + author + " said: \n" + title, "\nSee more: ");
    PrefixGrows(head, p + Itoa(time) + ", " + author + " said: \n" + title + "\nSee more: ", link);
  }

  /** The thread id can be read back from the header of every channel message. */
  lemma MakeMessageNamesThread(threadId: int, title: string, link: string, time: int, author: string)
    requires IsInt64(threadId)
    ensures |MakeMessage(threadId, title, link, time, author)| >= 8 + |Itoa(threadId)|
    ensures ParseInt(MakeMessage(threadId, title, link, time, author)[8..8 + |Itoa(threadId)|], 10) == threadId
  {
    var id := Itoa(threadId);
    var head := "Thread #" + id + "\n";
    var r := MakeMessage(threadId, title, link, time, author);
    MakeMessageHeader(threadId, title, link, time, author);
    assert r[..|head|] == head;
    assert r[8..8 + |id|] == head[8..8 + |id|];
    assert head[8..8 + |id|] == id;
    ParseIntItoa(threadId, 10);
  }

  /** Every channel message ends with the post's permalink after `See more: `. */
  lemma MakeMessageEndsWithLink(threadId: int, title: string, link: string, time: int, author: string)
    ensures |MakeMessage(threadId, title, link, time, author)| >= 11 + |link|
    ensures MakeMessage(threadId, title, link, time, author)[|MakeMessage(threadId, title, link, time, author)| - |link| - 11..]
         == "\nSee more: " + link
  {
    var head := "Thread #" + Itoa(threadId) + "\nOn " + Itoa(time) + ", " + author + " said: \n" + title;
    var r := MakeMessage(threadId, title, link, time, author);
    assert r == head + ("\nSee more: " + link);
    assert r[|head|..] == "\nSee more: " + link;
  }

  /** The post's body stands between the header's ` said: ` line and the `See more: ` line. */
  lemma MakeMessageCarriesBody(threadId: int, title: string, link: string, time: int, author: string)
    ensures var r := MakeMessage(threadId, title, link, time, author);
            |r| >= 19 + |title| + |link|
            && r[|r| - |link| - |title| - 19..|r| - |link| - 11] == " said: \n" + title
  {
    var head := "Thread #" + Itoa(threadId) + "\nOn " + Itoa(time) + ", " + author;
    var mid := " said: \n" + title;
    var tail := "\nSee more: " + link;
    var r := MakeMessage(threadId, title, link, time, author);
    assert r == head + mid + tail;
    assert |mid| == 8 + |title| && |tail| == 11 + |link|;
    assert |r| == |head| + |mid| + |tail|;
    assert (head + mid + tail)[|head|..|head| + |mid|] == mid;
  }
}
