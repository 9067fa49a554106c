/**
 * The Product Hunt side of discovery: the product record built from a GraphQL node,
 * the paginated post queries with their vote filter, and the choice of a homepage
 * among the external links of a launch page.
 */
module ProductHunt {
  import opened Wrappers
  import opened Strings
  import opened Urls

  // ---------------------------------------------------------------------------
  // Products

  /** A maker as stored on a product: each field is whatever the node had, possibly nothing. */
  datatype Maker = Maker(id: Option<string>, name: Option<string>, username: Option<string>, headline: Option<string>)

  /** `ProductHuntProduct`. */
  datatype Product = Product(
    id: string,
    name: string,
    tagline: Option<string>,
    description: Option<string>,
    homepageUrl: Option<string>,
    producthuntUrl: Option<string>,
    votesCount: int,
    reviewsCount: int,
    reviewsRating: Option<real>,
    createdAt: Option<string>,
    featuredAt: Option<string>,
    slug: Option<string>,
    topics: seq<string>,
    makers: seq<Maker>,
    thumbnailUrl: Option<string>)

  /** A topic edge of a post node. */
  datatype TopicNode = TopicNode(name: string, slug: string)

  /** A thumbnail object; `None` for its url when the key is absent. */
  datatype Thumbnail = Thumbnail(url: Option<string>)

  /**
   * A post node of the GraphQL response. `None` stands for an absent key; `id` and
   * `name` are always present. `topics` is the list of topic edges, and an empty
   * thumbnail object is written `None`, as Python treats it as false.
   */
  datatype Node = Node(
    id: string,
    name: string,
    tagline: Option<string>,
    description: Option<string>,
    website: Option<string>,
    url: Option<string>,
    votesCount: Option<int>,
    reviewsCount: Option<int>,
    reviewsRating: Option<real>,
    createdAt: Option<string>,
    featuredAt: Option<string>,
    slug: Option<string>,
    topics: Option<seq<TopicNode>>,
    makers: Option<seq<Maker>>,
    thumbnail: Option<Thumbnail>)

  function TopicNames(edges: seq<TopicNode>): (r: seq<string>)
    ensures |r| == |edges|
    ensures forall i :: 0 <= i < |edges| ==> r[i] == edges[i].name
  {
    if edges == [] then [] else [edges[0].name] + TopicNames(edges[1..])
  }

  /** `ProductHuntProduct.from_graphql`. */
  function FromGraphql(node: Node): (p: Product)
    ensures p.id == node.id && p.name == node.name
    ensures p.homepageUrl == node.website && p.producthuntUrl == node.url
    ensures p.votesCount == node.votesCount.GetOr(0) && p.reviewsCount == node.reviewsCount.GetOr(0)
    ensures |p.topics| == (if node.topics.Some? then |node.topics.value| else 0)
    ensures node.topics.Some? ==> forall i :: 0 <= i < |p.topics| ==> p.topics[i] == node.topics.value[i].name
  {
    Product(
      node.id, node.name, node.tagline, node.description, node.website, node.url,
      node.votesCount.GetOr(0), node.reviewsCount.GetOr(0), node.reviewsRating,
      node.createdAt, node.featuredAt, node.slug,
      if node.topics.Some? then TopicNames(node.topics.value) else [],
      node.makers.GetOr([]),
      if node.thumbnail.Some? then node.thumbnail.value.url else None)
  }

  /** A node carrying every field of `p` (topic slugs are not kept by a product, so they are left empty). */
  function ToNode(p: Product): Node {
    Node(
      p.id, p.name, p.tagline, p.description, p.homepageUrl, p.producthuntUrl,
      Some(p.votesCount), Some(p.reviewsCount), p.reviewsRating,
      p.createdAt, p.featuredAt, p.slug,
      Some(seq(|p.topics|, i requires 0 <= i < |p.topics| => TopicNode(p.topics[i], ""))),
      Some(p.makers),
      Some(Thumbnail(p.thumbnailUrl)))
  }

  /** Every product is what `from_graphql` makes of the node carrying its fields. */
  lemma FromGraphqlOfToNode(p: Product)
    ensures FromGraphql(ToNode(p)) == p
  {
    var q := FromGraphql(ToNode(p));
    assert q.topics == p.topics;
  }

  // ---------------------------------------------------------------------------
  // Paginated post queries

  datatype PostsOrder = Votes | Ranking

  /** The variables of one posts query. `None` stands for a variable that is not sent. */
  datatype Request = Request(first: int, after: Option<string>, order: PostsOrder,
                             topic: Option<string>, postedAfter: Option<string>)

  /**
   * The outcome of one posts query after rate limiting and retries: a page of post
   * nodes with its page info, or the error the query raised.
   */
  datatype PageResult =
    | Page(edges: seq<Node>, hasNextPage: bool, endCursor: Option<string>)
    | QueryFailed(message: string)

  /** What a listing asks for: how many products, the vote floor, and the query variables. */
  datatype Listing = Listing(limit: int, minVotes: int, order: PostsOrder,
                             topic: Option<string>, postedAfter: Option<string>)

  /** The answer the `k`-th query gets; beyond the given pages the server has no more posts. */
  function PageAt(pages: seq<PageResult>, k: nat): PageResult {
    if k < |pages| then pages[k] else Page([], false, None)
  }

  function EdgesOf(r: PageResult): seq<Node> {
    if r.Page? then r.edges else []
  }

  function CursorOf(r: PageResult): Option<string> {
    if r.Page? then r.endCursor else None
  }

  /** The products of `nodes`, in order, that pass the vote filter. */
  function Eligible(nodes: seq<Node>, minVotes: int): (r: seq<Product>)
    ensures |r| <= |nodes|
  {
    if nodes == [] then []
    else
      var p := FromGraphql(nodes[|nodes| - 1]);
      Eligible(nodes[..|nodes| - 1], minVotes) + (if p.votesCount >= minVotes then [p] else [])
  }

  /** The first `n` elements of `s` (all of them when there are fewer, none when `n <= 0`). */
  function Take<T>(s: seq<T>, n: int): (r: seq<T>)
    ensures |r| == (if n <= 0 then 0 else if n < |s| then n else |s|)
  {
    if n <= 0 then [] else if n < |s| then s[..n] else s
  }

  function Min(a: int, b: int): int {
    if a <= b then a else b
  }

  /** `min_votes if min_votes is not None else self.min_votes`. */
  function EffectiveMinVotes(minVotes: Option<int>, clientMinVotes: int): (m: int)
    ensures minVotes.Some? ==> m == minVotes.value
    ensures minVotes.None? ==> m == clientMinVotes
  {
    if minVotes.Some? then minVotes.value else clientMinVotes
  }

  /** `posted_after`, when it is sent at all: only a non-empty date is. */
  function SentPostedAfter(postedAfter: Option<string>): Option<string> {
    if Truthy(postedAfter) then postedAfter else None
  }

  // ---------------------------------------------------------------------------
  // The listing loop as a state machine

  /**
   * The listing loop between two queries: what has been yielded, the queries sent, the
   * cursor for the next one, whether the loop has ended, and the error that ended it.
   */
  datatype Fetch = Fetch(products: seq<Product>, requests: seq<Request>, cursor: Option<string>,
                         over: bool, error: Option<string>)

  function Start(l: Listing): Fetch {
    Fetch([], [], None, l.limit <= 0, None)
  }

  /** The next query: a page of `min(50, limit - fetched)` posts after the cursor. */
  function NextRequest(l: Listing, s: Fetch): Request {
    Request(Min(50, l.limit - |s.products|), s.cursor, l.order, l.topic, SentPostedAfter(l.postedAfter))
  }

  /** One pass of the loop: send the next query and take the eligible products of its answer. */
  function Answer(l: Listing, pages: seq<PageResult>, s: Fetch): Fetch {
    if s.over then s
    else
      var page := PageAt(pages, |s.requests|);
      var requests := s.requests + [NextRequest(l, s)];
      if page.QueryFailed? then Fetch(s.products, requests, s.cursor, true, Some(page.message))
      else if page.edges == [] then Fetch(s.products, requests, s.cursor, true, None)
      else
        var products := s.products + Take(Eligible(page.edges, l.minVotes), l.limit - |s.products|);
        if !page.hasNextPage then Fetch(products, requests, s.cursor, true, None)
        else Fetch(products, requests, page.endCursor, |products| >= l.limit, None)
  }

  /** The state after `n` passes. */
  function Run(l: Listing, pages: seq<PageResult>, n: nat): Fetch {
    if n == 0 then Start(l) else Answer(l, pages, Run(l, pages, n - 1))
  }

  /** Where the loop ends: it makes at most one query more than there are pages with posts. */
  function Outcome(l: Listing, pages: seq<PageResult>): Fetch {
    Run(l, pages, |pages| + 1)
  }

  /**
   * The loop over the edges of one page: the products passing the vote filter, in order,
   * until `room` of them have been taken.
   */
  method TakeEligible(edges: seq<Node>, minVotes: int, room: int) returns (taken: seq<Product>)
    requires room > 0
    ensures taken == Take(Eligible(edges, minVotes), room)
  {
    taken := [];
    var i := 0;
    while i < |edges|
      invariant 0 <= i <= |edges|
      invariant |taken| < room
      invariant taken == Eligible(edges[..i], minVotes)
    {
      var p := FromGraphql(edges[i]);
      assert edges[..i + 1][..i] == edges[..i];
      if p.votesCount >= minVotes {
        taken := taken + [p];
        if |taken| >= room {
          EligibleTake(edges, i + 1, minVotes, room);
          return;
        }
      }
      i := i + 1;
    }
    assert edges[..i] == edges;
  }

  /**
   * One pass of the listing loop: query the page after `cursor`, sized to what is still
   * wanted, and take its eligible posts. `over` says the loop ends after this pass.
   */
  method QueryPage(l: Listing, pages: seq<PageResult>, products: seq<Product>,
                   requests: seq<Request>, cursor: Option<string>)
    returns (products': seq<Product>, requests': seq<Request>, cursor': Option<string>,
             over: bool, error: Option<string>)
    requires |products| < l.limit
    ensures |requests'| == |requests| + 1
    ensures !over ==> |requests| < |pages| && |products'| < l.limit && error == None
    ensures Fetch(products', requests', cursor', over, error)
            == Answer(l, pages, Fetch(products, requests, cursor, false, None))
  {
    var fetched := |products|;
    var page := PageAt(pages, |requests|);
    requests' := requests + [Request(Min(50, l.limit - fetched), cursor, l.order, l.topic,
                                     SentPostedAfter(l.postedAfter))];
    products', cursor', error := products, cursor, None;
    if page.QueryFailed? {
      return products', requests', cursor', true, Some(page.message);
    }
    if page.edges == [] {
      return products', requests', cursor', true, None;
    }
    var taken := TakeEligible(page.edges, l.minVotes, l.limit - fetched);
    products' := products + taken;
    fetched := fetched + |taken|;
    if !page.hasNextPage {
      return products', requests', cursor', true, None;
    }
    cursor' := page.endCursor;
    over := fetched >= l.limit;
  }

  /**
   * The loop shared by `get_popular_products`, `get_trending_products` and
   * `get_products_by_topic`: pages of at most 50 posts are requested, each from the
   * cursor the previous page ended at, and the posts with at least `minVotes` votes are
   * yielded until `limit` of them have been, a page comes back empty, or there is no
   * next page. `products` is everything yielded, `requests` the queries sent, and
   * `error` the error a query raised.
   */
  method FetchPosts(l: Listing, pages: seq<PageResult>)
    returns (products: seq<Product>, requests: seq<Request>, error: Option<string>)
    ensures products == Outcome(l, pages).products
    ensures requests == Outcome(l, pages).requests
    ensures error == Outcome(l, pages).error
  {
    products := [];
    requests := [];
    error := None;
    var cursor: Option<string> := None;
    var over := l.limit <= 0;
    while !over
      invariant |requests| <= |pages| + 1
      invariant !over ==> |requests| <= |pages| && |products| < l.limit && error == None
      invariant Run(l, pages, |requests|) == Fetch(products, requests, cursor, over, error)
      decreases |pages| + 1 - |requests|, !over
    {
      RunNext(l, pages, |requests|);
      products, requests, cursor, over, error := QueryPage(l, pages, products, requests, cursor);
    }
    RunStops(l, pages, |requests|);
  }

  // ---------------------------------------------------------------------------
  // What the loop yields and asks for

  /** The eligible products of the first `k` answers, in order. */
  function EligibleUpTo(pages: seq<PageResult>, k: nat, minVotes: int): seq<Product> {
    if k == 0 then [] else EligibleUpTo(pages, k - 1, minVotes) + Eligible(EdgesOf(PageAt(pages, k - 1)), minVotes)
  }

  /** The products yielded once `k` answers have come in: the first `limit` eligible ones. */
  function Yielded(l: Listing, pages: seq<PageResult>, k: nat): seq<Product> {
    Take(EligibleUpTo(pages, k, l.minVotes), l.limit)
  }

  /** The `j`-th query: sized to what is still wanted, and after the cursor the previous page ended at. */
  function RequestAt(l: Listing, pages: seq<PageResult>, j: nat): Request {
    Request(Min(50, l.limit - |Yielded(l, pages, j)|),
            if j == 0 then None else CursorOf(PageAt(pages, j - 1)),
            l.order, l.topic, SentPostedAfter(l.postedAfter))
  }

  /** The answer to the `j`-th query let the loop go on: a non-empty page with a next page. */
  predicate Continued(pages: seq<PageResult>, j: nat) {
    var pg := PageAt(pages, j); pg.Page? && pg.edges != [] && pg.hasNextPage
  }

  lemma {:induction false} EligibleConcat(a: seq<Node>, b: seq<Node>, minVotes: int)
    ensures Eligible(a + b, minVotes) == Eligible(a, minVotes) + Eligible(b, minVotes)
    decreases |b|
  {
    if b == [] {
      assert a + b == a;
    } else {
      var b' := b[..|b| - 1];
      assert (a + b)[..|a + b| - 1] == a + b';
      assert (a + b)[|a + b| - 1] == b[|b| - 1];
      EligibleConcat(a, b', minVotes);
    }
  }

  lemma TakeAppend<T>(a: seq<T>, b: seq<T>, n: int)
    requires |a| < n
    ensures Take(a + b, n) == a + Take(b, n - |a|)
  {
    if n - |a| < |b| {
      assert (a + b)[..n] == a + b[..n - |a|];
    }
  }

  lemma TakeOfLonger<T>(a: seq<T>, b: seq<T>, n: int)
    requires n <= |a|
    ensures Take(a + b, n) == Take(a, n)
  {
    if 0 < n {
      assert (a + b)[..n] == a[..n];
    }
  }

  /** `Take` keeps a prefix. */
  lemma TakePrefix<T>(s: seq<T>, n: int)
    ensures forall i :: 0 <= i < |Take(s, n)| ==> Take(s, n)[i] == s[i]
  {
  }

  /** Once `room` eligible products are among the first `j` edges, the rest do not matter. */
  lemma EligibleTake(edges: seq<Node>, j: nat, minVotes: int, room: int)
    requires j <= |edges| && |Eligible(edges[..j], minVotes)| == room
    ensures Take(Eligible(edges, minVotes), room) == Eligible(edges[..j], minVotes)
  {
    assert edges == edges[..j] + edges[j..];
    EligibleConcat(edges[..j], edges[j..], minVotes);
    TakeOfLonger(Eligible(edges[..j], minVotes), Eligible(edges[j..], minVotes), room);
  }

  lemma {:induction false} EligibleVotes(nodes: seq<Node>, minVotes: int)
    ensures forall p :: p in Eligible(nodes, minVotes) ==> p.votesCount >= minVotes
  {
    if nodes != [] {
      EligibleVotes(nodes[..|nodes| - 1], minVotes);
    }
  }

  lemma {:induction false} EligibleUpToVotes(pages: seq<PageResult>, k: nat, minVotes: int)
    ensures forall p :: p in EligibleUpTo(pages, k, minVotes) ==> p.votesCount >= minVotes
  {
    if k > 0 {
      EligibleUpToVotes(pages, k - 1, minVotes);
      EligibleVotes(EdgesOf(PageAt(pages, k - 1)), minVotes);
    }
  }

  /** An answer without posts adds nothing. */
  lemma YieldedNoPosts(l: Listing, pages: seq<PageResult>, k: nat)
    requires EdgesOf(PageAt(pages, k)) == []
    ensures Yielded(l, pages, k + 1) == Yielded(l, pages, k)
  {
    var prev := EligibleUpTo(pages, k, l.minVotes);
    assert prev + [] == prev;
  }

  /** A page's posts add what the loop over its edges takes. */
  lemma YieldedPage(l: Listing, pages: seq<PageResult>, k: nat, products: seq<Product>)
    requires products == Yielded(l, pages, k) && |products| < l.limit
    ensures products + Take(Eligible(EdgesOf(PageAt(pages, k)), l.minVotes), l.limit - |products|)
            == Yielded(l, pages, k + 1)
  {
    var before := EligibleUpTo(pages, k, l.minVotes);
    assert products == before;
    TakeAppend(before, Eligible(EdgesOf(PageAt(pages, k)), l.minVotes), l.limit);
  }

  lemma RunNext(l: Listing, pages: seq<PageResult>, n: nat)
    ensures Run(l, pages, n + 1) == Answer(l, pages, Run(l, pages, n))
  {
  }

  /** A loop that has ended stays where it is. */
  lemma {:induction false} RunStops(l: Listing, pages: seq<PageResult>, n: nat)
    requires n <= |pages| + 1 && Run(l, pages, n).over
    ensures Outcome(l, pages) == Run(l, pages, n)
    decreases |pages| + 1 - n
  {
    if n < |pages| + 1 {
      assert Run(l, pages, n + 1) == Run(l, pages, n);
      RunStops(l, pages, n + 1);
    }
  }

  /** One pass of a running loop, field by field. */
  lemma AnswerOpen(l: Listing, pages: seq<PageResult>, s: Fetch)
    requires !s.over
    ensures var t := Answer(l, pages, s); var page := PageAt(pages, |s.requests|);
      && t.requests == s.requests + [NextRequest(l, s)]
      && t.products == s.products + Take(Eligible(EdgesOf(page), l.minVotes), l.limit - |s.products|)
      && t.error == (if page.QueryFailed? then Some(page.message) else None)
      && (t.over <==> !Continued(pages, |s.requests|) || |t.products| >= l.limit)
      && (!t.over ==> t.cursor == CursorOf(page))
  {
    var page := PageAt(pages, |s.requests|);
    if page.QueryFailed? || page.edges == [] {
      assert s.products + Take(Eligible(EdgesOf(page), l.minVotes), l.limit - |s.products|) == s.products;
    }
  }

  /** What holds of the loop's state after `n` passes. */
  predicate Bookkept(l: Listing, pages: seq<PageResult>, n: nat, s: Fetch) {
    && |s.requests| <= n
    && (!s.over ==>
          && |s.requests| == n
          && |s.products| < l.limit
          && s.error == None
          && s.cursor == (if n == 0 then None else CursorOf(PageAt(pages, n - 1))))
    && s.products == Yielded(l, pages, |s.requests|)
  }

  lemma AnswerKeeps(l: Listing, pages: seq<PageResult>, n: nat, s: Fetch)
    requires Bookkept(l, pages, n, s)
    ensures Bookkept(l, pages, n + 1, Answer(l, pages, s))
  {
    if !s.over {
      AnswerOpen(l, pages, s);
      YieldedPage(l, pages, n, s.products);
    }
  }

  /** The loop's bookkeeping: one query per pass, and the products are the first eligible ones. */
  lemma {:induction false} RunBasics(l: Listing, pages: seq<PageResult>, n: nat)
    ensures Bookkept(l, pages, n, Run(l, pages, n))
  {
    if n > 0 {
      RunBasics(l, pages, n - 1);
      AnswerKeeps(l, pages, n - 1, Run(l, pages, n - 1));
    }
  }

  /** Why the loop went on after each answer but the last, and why it stopped if it did. */
  predicate Stopped(l: Listing, pages: seq<PageResult>, s: Fetch) {
    var k := |s.requests|;
    && (forall j :: 0 <= j < k - 1 ==> Continued(pages, j))
    && (!s.over ==> k == 0 || Continued(pages, k - 1))
    && (s.over ==> if k == 0 then l.limit <= 0 else !Continued(pages, k - 1) || |s.products| >= l.limit)
    && (s.error.Some? <==> k > 0 && PageAt(pages, k - 1).QueryFailed?)
    && (s.error.Some? ==> s.error.value == PageAt(pages, k - 1).message)
  }

  lemma AnswerKeepsStopped(l: Listing, pages: seq<PageResult>, n: nat, s: Fetch)
    requires Bookkept(l, pages, n, s) && Stopped(l, pages, s)
    ensures Stopped(l, pages, Answer(l, pages, s))
  {
    if !s.over {
      AnswerOpen(l, pages, s);
    }
  }

  /** A pass of the running loop sends the query the listing calls for, while fewer than `limit` were yielded. */
  lemma AnswerNextRequest(l: Listing, pages: seq<PageResult>, n: nat, s: Fetch)
    requires Bookkept(l, pages, n, s) && !s.over
    ensures Answer(l, pages, s).requests == s.requests + [RequestAt(l, pages, |s.requests|)]
    ensures |Yielded(l, pages, |s.requests|)| < l.limit
  {
    AnswerOpen(l, pages, s);
    assert NextRequest(l, s) == RequestAt(l, pages, |s.requests|);
  }

  /** Each query of `requests` is the one the listing calls for, sent while fewer than `limit` were yielded. */
  ghost predicate AsRequested(l: Listing, pages: seq<PageResult>, requests: seq<Request>)
    decreases |requests|
  {
    requests == [] ||
      var j := |requests| - 1;
      && AsRequested(l, pages, requests[..j])
      && requests[j] == RequestAt(l, pages, j)
      && |Yielded(l, pages, j)| < l.limit
  }

  lemma {:induction false} AsRequestedAt(l: Listing, pages: seq<PageResult>, requests: seq<Request>, j: nat)
    requires AsRequested(l, pages, requests) && j < |requests|
    ensures requests[j] == RequestAt(l, pages, j) && |Yielded(l, pages, j)| < l.limit
    decreases |requests|
  {
    if j < |requests| - 1 {
      var init := requests[..|requests| - 1];
      AsRequestedAt(l, pages, init, j);
      assert init[j] == requests[j];
    }
  }

  lemma AnswerAsRequested(l: Listing, pages: seq<PageResult>, n: nat, s: Fetch)
    requires Bookkept(l, pages, n, s) && AsRequested(l, pages, s.requests)
    ensures AsRequested(l, pages, Answer(l, pages, s).requests)
  {
    if !s.over {
      AnswerNextRequest(l, pages, n, s);
      assert (s.requests + [RequestAt(l, pages, |s.requests|)])[..|s.requests|] == s.requests;
    }
  }

  /** Every query sent so far is the one the listing calls for. */
  lemma {:induction false} RunAsRequested(l: Listing, pages: seq<PageResult>, n: nat)
    ensures AsRequested(l, pages, Run(l, pages, n).requests)
  {
    if n > 0 {
      RunAsRequested(l, pages, n - 1);
      RunBasics(l, pages, n - 1);
      AnswerAsRequested(l, pages, n - 1, Run(l, pages, n - 1));
    }
  }

  lemma {:induction false} RunStopped(l: Listing, pages: seq<PageResult>, n: nat)
    ensures Stopped(l, pages, Run(l, pages, n))
  {
    if n > 0 {
      RunStopped(l, pages, n - 1);
      RunBasics(l, pages, n - 1);
      AnswerKeepsStopped(l, pages, n - 1, Run(l, pages, n - 1));
    }
  }


  /** After as many passes as there are pages and one more, the loop has ended. */
  lemma OutcomeIsOver(l: Listing, pages: seq<PageResult>)
    ensures Outcome(l, pages).over
  {
    RunBasics(l, pages, |pages| + 1);
    RunStopped(l, pages, |pages| + 1);
  }

  /**
   * What a listing yields: the first `limit` eligible products in page order (so at most
   * `limit` of them), each with at least `minVotes` votes.
   */
  lemma OutcomeYields(l: Listing, pages: seq<PageResult>)
    ensures Outcome(l, pages).products == Yielded(l, pages, |Outcome(l, pages).requests|)
    ensures |Outcome(l, pages).products| <= (if l.limit < 0 then 0 else l.limit)
    ensures forall p :: p in Outcome(l, pages).products ==> p.votesCount >= l.minVotes
  {
    var o := Outcome(l, pages);
    RunBasics(l, pages, |pages| + 1);
    TakePrefix(EligibleUpTo(pages, |o.requests|, l.minVotes), l.limit);
    EligibleUpToVotes(pages, |o.requests|, l.minVotes);
  }

  /**
   * What a listing asks for: every query is for `min(50, limit - fetched)` posts, between
   * 1 and 50, after the cursor the previous page ended at; none is sent when `limit <= 0`.
   */
  lemma OutcomeRequests(l: Listing, pages: seq<PageResult>)
    ensures forall j :: 0 <= j < |Outcome(l, pages).requests| ==>
              && Outcome(l, pages).requests[j] == RequestAt(l, pages, j)
              && 1 <= Outcome(l, pages).requests[j].first <= 50
    ensures |Outcome(l, pages).requests| == 0 <==> l.limit <= 0
  {
    var o := Outcome(l, pages);
    OutcomeIsOver(l, pages);
    RunAsRequested(l, pages, |pages| + 1);
    forall j | 0 <= j < |o.requests|
      ensures o.requests[j] == RequestAt(l, pages, j) && 1 <= o.requests[j].first <= 50
    {
      AsRequestedAt(l, pages, o.requests, j);
    }
    if l.limit <= 0 {
      RunStops(l, pages, 0);
    } else {
      RunStopped(l, pages, |pages| + 1);
    }
  }

  /**
   * Why a listing stopped: it went on only past pages with posts and a next page, and
   * it ended at a failed, empty or last page or once `limit` products were yielded;
   * the error is the failed query's.
   */
  lemma OutcomeStops(l: Listing, pages: seq<PageResult>)
    ensures forall j :: 0 <= j < |Outcome(l, pages).requests| - 1 ==> Continued(pages, j)
    ensures |Outcome(l, pages).requests| > 0 ==>
              !Continued(pages, |Outcome(l, pages).requests| - 1) || |Outcome(l, pages).products| == l.limit
    ensures Outcome(l, pages).error.Some? <==>
              |Outcome(l, pages).requests| > 0 && PageAt(pages, |Outcome(l, pages).requests| - 1).QueryFailed?
    ensures Outcome(l, pages).error.Some? ==>
              Outcome(l, pages).error.value == PageAt(pages, |Outcome(l, pages).requests| - 1).message
  {
    OutcomeIsOver(l, pages);
    OutcomeYields(l, pages);
    OutcomeRequests(l, pages);
    RunStopped(l, pages, |pages| + 1);
  }

  // ---------------------------------------------------------------------------
  // The three listings

  /** `get_popular_products`: by votes, after `posted_after` when one is given. */
  function PopularListing(clientMinVotes: int, limit: int, minVotes: Option<int>, postedAfter: Option<string>): (l: Listing)
    ensures l.order == Votes && l.topic == None && l.postedAfter == postedAfter
  {
    Listing(limit, EffectiveMinVotes(minVotes, clientMinVotes), Votes, None, postedAfter)
  }

  /** `get_trending_products`: by ranking, with no topic or date. */
  function TrendingListing(clientMinVotes: int, limit: int, minVotes: Option<int>): (l: Listing)
    ensures l.order == Ranking && l.topic == None && l.postedAfter == None
  {
    Listing(limit, EffectiveMinVotes(minVotes, clientMinVotes), Ranking, None, None)
  }

  /** `get_products_by_topic`: by votes within one topic. */
  function TopicListing(clientMinVotes: int, topicSlug: string, limit: int, minVotes: Option<int>): (l: Listing)
    ensures l.order == Votes && l.topic == Some(topicSlug) && l.postedAfter == None
  {
    Listing(limit, EffectiveMinVotes(minVotes, clientMinVotes), Votes, Some(topicSlug), None)
  }

  method GetPopularProducts(clientMinVotes: int, pages: seq<PageResult>, limit: int := 100,
                            minVotes: Option<int> := None, postedAfter: Option<string> := None)
    returns (products: seq<Product>, requests: seq<Request>, error: Option<string>)
    ensures var o := Outcome(PopularListing(clientMinVotes, limit, minVotes, postedAfter), pages);
      products == o.products && requests == o.requests && error == o.error
  {
    products, requests, error := FetchPosts(PopularListing(clientMinVotes, limit, minVotes, postedAfter), pages);
  }

  method GetTrendingProducts(clientMinVotes: int, pages: seq<PageResult>, limit: int := 100,
                             minVotes: Option<int> := None)
    returns (products: seq<Product>, requests: seq<Request>, error: Option<string>)
    ensures var o := Outcome(TrendingListing(clientMinVotes, limit, minVotes), pages);
      products == o.products && requests == o.requests && error == o.error
  {
    products, requests, error := FetchPosts(TrendingListing(clientMinVotes, limit, minVotes), pages);
  }

  method GetProductsByTopic(clientMinVotes: int, topicSlug: string, pages: seq<PageResult>,
                            limit: int := 50, minVotes: Option<int> := None)
    returns (products: seq<Product>, requests: seq<Request>, error: Option<string>)
    ensures var o := Outcome(TopicListing(clientMinVotes, topicSlug, limit, minVotes), pages);
      products == o.products && requests == o.requests && error == o.error
  {
    products, requests, error := FetchPosts(TopicListing(clientMinVotes, topicSlug, limit, minVotes), pages);
  }
}
