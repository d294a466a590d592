/**
 * One run of the posting robot (`iniciar_automacao`): for every client whose
 * essential settings are filled in, read each of its feeds against the set of
 * links already posted, and try the new posts oldest first. A post's link is
 * committed to the ledger, and to the in-memory set that later feeds are read
 * against, only once its image was rendered and uploaded; the first failure
 * ends that feed. Feed downloads and the render-and-upload step are given as
 * `Sources`.
 */
module Automation {

  import opened Wrappers
  import opened Values
  import opened Feeds

  /** The settings `verificar_configuracao_completa` requires. */
  const ESSENTIAL: seq<string> := ["nome", "logo_url", "font_url_titulo", "font_url_texto"]

  /** Every key of `keys` is in `config` with a truthy value. */
  function AllSet(config: Dict, keys: seq<string>): (r: bool)
    ensures r <==> forall i :: 0 <= i < |keys| ==> keys[i] in config && Truthy(config[keys[i]])
  {
    if keys == [] then true
    else keys[0] in config && Truthy(config[keys[0]]) && AllSet(config, keys[1..])
  }

  /** `verificar_configuracao_completa`: the four essential settings are present and truthy. */
  predicate ConfigComplete(config: Dict): (r: bool)
    ensures r <==>
      && "nome" in config && Truthy(config["nome"])
      && "logo_url" in config && Truthy(config["logo_url"])
      && "font_url_titulo" in config && Truthy(config["font_url_titulo"])
      && "font_url_texto" in config && Truthy(config["font_url_texto"])
  {
    assert ESSENTIAL[0] == "nome" && ESSENTIAL[1] == "logo_url";
    assert ESSENTIAL[2] == "font_url_titulo" && ESSENTIAL[3] == "font_url_texto";
    AllSet(config, ESSENTIAL)
  }

  /** A link that can be saved: it passed the `all([...])` test and the set lookup. */
  predicate Storable(link: Json) {
    Truthy(link) && Hashable(link)
  }

  /**
   * The text the `link TEXT` column keeps for a link: a string as it is, an
   * integer as its decimal digits, a boolean as PostgreSQL's `true`/`false`.
   */
  function DbText(link: Json): (text: string)
    ensures link.JString? ==> text == link.s
    ensures HashKey(link) in Loaded({text}) <==> link.JString?
  {
    match link
    case JString(s) => s
    case JInt(_) => Str(link)
    case JBool(b) => if b then "true" else "false"
    case _ => ""
  }

  /**
   * `carregar_links_postados_db`: the rows read back, as Python strings; only
   * string links can ever be found in this set.
   */
  function Loaded(rows: set<string>): (seen: set<Json>)
    ensures forall v :: v in seen <==> v.JString? && v.s in rows
  {
    set s | s in rows :: JString(s)
  }

  /** The table of posted links, one row per text (`link TEXT NOT NULL UNIQUE`). */
  class Ledger {
    var links: set<string>

    constructor (rows: set<string>)
      ensures links == rows
    {
      links := rows;
    }

    /**
     * `salvar_link_postado_db`: an insert of the link's text that does nothing
     * when that text is already there.
     */
    method Save(link: Json)
      requires Storable(link)
      modifies this
      ensures links == old(links) + {DbText(link)}
      ensures DbText(link) in old(links) ==> links == old(links)
    {
      links := links + {DbText(link)};
    }
  }

  /** A row of the `feeds` table: its kind (`rss` or `json`) and its address. */
  datatype Feed = Feed(tipo: string, url: string)

  /** A row of the `clientes` table, with the feeds registered for it; `config` is `None` for SQL `NULL`. */
  datatype Client = Client(id: Json, config: Option<Dict>, feeds: seq<Feed>)

  /** `cliente['config'] or {}`. */
  function ConfigOf(c: Client): Dict {
    c.config.GetOr(map[])
  }

  /**
   * The outside world: what the RSS parser and the JSON download give for an
   * address, and whether rendering a post's image for a client and uploading
   * it succeeds.
   */
  datatype Sources = Sources(
    parseRss: string -> RssParse,
    fetchJson: string -> JsonFetch,
    render: (Json, Dict, Post) -> bool)

  /** One try at a post: the post and whether its image was rendered and uploaded. */
  datatype Attempt = Attempt(post: Post, ok: bool)

  /** What happened for one feed of one client: the new posts found, and the tries, in the order made. */
  datatype FeedRun = FeedRun(client: Json, feed: Feed, found: seq<Post>, attempts: seq<Attempt>)

  /** Values that can be sliced (`post['titulo'][:50]`): strings and lists. */
  predicate Sliceable(v: Json) {
    v.JString? || v.JArray?
  }

  /** A try succeeds when the title can be sliced for the log line and rendering and uploading succeed. */
  predicate AttemptOk(id: Json, config: Dict, p: Post, src: Sources): (r: bool)
    ensures !p.titulo.JString? && !p.titulo.JArray? ==> !r
    ensures r ==> src.render(id, config, p)
  {
    Sliceable(p.titulo) && src.render(id, config, p)
  }

  /** The new posts of a feed: nothing for a kind other than `rss` or `json`. */
  function Found(feed: Feed, seen: set<Json>, src: Sources): (posts: seq<Post>)
    ensures feed.tipo != "rss" && feed.tipo != "json" ==> posts == []
    ensures feed.tipo == "rss" && src.parseRss(feed.url).bozo ==> posts == []
    ensures feed.tipo == "json" && src.fetchJson(feed.url).FetchFailed? ==> posts == []
    ensures forall p :: p in posts ==> IsNew(p, seen) && Storable(p.link)
  {
    if feed.tipo == "rss" then
      var posts := RssFeedPosts(src.parseRss(feed.url), seen);
      assert forall p :: p in posts ==> IsNew(p, seen) && Storable(p.link) by {
        forall p | p in posts ensures IsNew(p, seen) && Storable(p.link) {
          RssFeedPostsNew(src.parseRss(feed.url), seen, p);
        }
      }
      posts
    else if feed.tipo == "json" then
      var posts := JsonFeedPosts(src.fetchJson(feed.url), seen);
      assert forall p :: p in posts ==> IsNew(p, seen) && Storable(p.link) by {
        forall p | p in posts ensures IsNew(p, seen) && Storable(p.link) {
          JsonFeedPostsNew(src.fetchJson(feed.url), seen, p);
        }
      }
      posts
    else []
  }

  /**
   * The tries at `posts`, newest last in the feed and so tried first from the
   * end: each success adds its link to `seen`; the first failure ends the run.
   * Gives the final set of links and the tries.
   */
  function ItemsRun(id: Json, config: Dict, posts: seq<Post>, seen: set<Json>, src: Sources): (r: (set<Json>, seq<Attempt>))
    ensures seen <= r.0
    ensures r.1 == [] <==> posts == []
    decreases |posts|
  {
    if posts == [] then (seen, [])
    else
      var p := posts[|posts| - 1];
      if !AttemptOk(id, config, p, src) then (seen, [Attempt(p, false)])
      else
        var rest := ItemsRun(id, config, posts[..|posts| - 1], seen + {HashKey(p.link)}, src);
        (rest.0, [Attempt(p, true)] + rest.1)
  }

  /** The body of the feed loop for one feed. */
  function FeedStep(id: Json, config: Dict, feed: Feed, seen: set<Json>, src: Sources): (set<Json>, FeedRun) {
    var found := Found(feed, seen, src);
    var items := ItemsRun(id, config, found, seen, src);
    (items.0, FeedRun(id, feed, found, items.1))
  }

  /** The feed loop of one client. */
  function FeedsRun(id: Json, config: Dict, feeds: seq<Feed>, seen: set<Json>, src: Sources): (r: (set<Json>, seq<FeedRun>))
    ensures seen <= r.0
    ensures |r.1| == |feeds|
    decreases |feeds|
  {
    if feeds == [] then (seen, [])
    else
      var first := FeedStep(id, config, feeds[0], seen, src);
      var rest := FeedsRun(id, config, feeds[1..], first.0, src);
      (rest.0, [first.1] + rest.1)
  }

  /** The client loop: clients with incomplete settings are skipped. */
  function ClientsRun(clients: seq<Client>, seen: set<Json>, src: Sources): (r: (set<Json>, seq<FeedRun>))
    ensures seen <= r.0
    decreases |clients|
  {
    if clients == [] then (seen, [])
    else
      var c := clients[0];
      if !ConfigComplete(ConfigOf(c)) then ClientsRun(clients[1..], seen, src)
      else
        var first := FeedsRun(c.id, ConfigOf(c), c.feeds, seen, src);
        var rest := ClientsRun(clients[1..], first.0, src);
        (rest.0, first.1 + rest.1)
  }

  /**
   * The item loop of one feed: `for post in reversed(posts_para_gerar)`,
   * committing each link, to the ledger and to the in-memory set, after its
   * image is rendered and uploaded, and leaving the loop at the first failure.
   */
  method TryPosts(id: Json, config: Dict, posts_para_gerar: seq<Post>, ledger: Ledger,
                  links_postados: set<Json>, src: Sources)
    returns (links: set<Json>, attempts: seq<Attempt>)
    requires forall p :: p in posts_para_gerar ==> Storable(p.link)
    modifies ledger
    ensures ledger.links == old(ledger.links) + OkTexts(attempts)
    ensures (links, attempts) == ItemsRun(id, config, posts_para_gerar, links_postados, src)
  {
    links := links_postados;
    attempts := [];
    var k := |posts_para_gerar|;
    assert posts_para_gerar[..k] == posts_para_gerar;
    ghost var all := ItemsRun(id, config, posts_para_gerar, links_postados, src);
    assert attempts + all.1 == all.1;
    assert OkTexts(attempts) == {};
    ghost var rows := ledger.links;
    while k > 0
      invariant 0 <= k <= |posts_para_gerar|
      invariant ledger.links == rows + OkTexts(attempts)
      invariant ItemsRun(id, config, posts_para_gerar, links_postados, src) ==
        (ItemsRun(id, config, posts_para_gerar[..k], links, src).0,
         attempts + ItemsRun(id, config, posts_para_gerar[..k], links, src).1)
    {
      var post := posts_para_gerar[k - 1];
      TryStep(id, config, posts_para_gerar, k, links, attempts, src);
      if !(Sliceable(post.titulo) && src.render(id, config, post)) {
        TryLedgerStep(rows, attempts, Attempt(post, false), ledger.links, ledger.links);
        attempts := attempts + [Attempt(post, false)];
        break;
      }
      ghost var before := ledger.links;
      assert post in posts_para_gerar;
      ledger.Save(post.link);
      TryLedgerStep(rows, attempts, Attempt(post, true), before, ledger.links);
      links := links + {HashKey(post.link)};
      attempts := attempts + [Attempt(post, true)];
      k := k - 1;
    }
    if k == 0 {
      assert posts_para_gerar[..k] == [];
      assert attempts + [] == attempts;
    }
  }

  /** One turn of the item loop: the ledger gains the row of a successful try. */
  lemma TryLedgerStep(rows: set<string>, attempts: seq<Attempt>, a: Attempt, before: set<string>, after: set<string>)
    requires before == rows + OkTexts(attempts)
    requires after == before + (if a.ok then {DbText(a.post.link)} else {})
    ensures after == rows + OkTexts(attempts + [a])
  {
    OkTextsSnoc(attempts, a);
  }

  /** The run over the first `k` posts starts with the `k`-th. */
  lemma ItemsRunLast(id: Json, config: Dict, posts: seq<Post>, k: nat, seen: set<Json>, src: Sources)
    requires 0 < k <= |posts|
    ensures var p := posts[k - 1];
      && (!AttemptOk(id, config, p, src) ==> ItemsRun(id, config, posts[..k], seen, src) == (seen, [Attempt(p, false)]))
      && (AttemptOk(id, config, p, src) ==>
            var rest := ItemsRun(id, config, posts[..k - 1], seen + {HashKey(p.link)}, src);
            ItemsRun(id, config, posts[..k], seen, src) == (rest.0, [Attempt(p, true)] + rest.1))
  {
    var before := posts[..k];
    assert before[..k - 1] == posts[..k - 1] && before[k - 1] == posts[k - 1];
  }

  /** One turn of the item loop: the run still to go after trying the `k`-th post. */
  lemma TryStep(id: Json, config: Dict, posts: seq<Post>, k: nat, seen: set<Json>, attempts: seq<Attempt>, src: Sources)
    requires 0 < k <= |posts|
    ensures var p := posts[k - 1];
      var now := ItemsRun(id, config, posts[..k], seen, src);
      var rest := ItemsRun(id, config, posts[..k - 1], seen + {HashKey(p.link)}, src);
      && (!AttemptOk(id, config, p, src) ==> (now.0, attempts + now.1) == (seen, attempts + [Attempt(p, false)]))
      && (AttemptOk(id, config, p, src) ==>
            (now.0, attempts + now.1) == (rest.0, (attempts + [Attempt(p, true)]) + rest.1))
  {
    var p := posts[k - 1];
    ItemsRunLast(id, config, posts, k, seen, src);
    var rest := ItemsRun(id, config, posts[..k - 1], seen + {HashKey(p.link)}, src);
    assert attempts + ([Attempt(p, true)] + rest.1) == (attempts + [Attempt(p, true)]) + rest.1;
  }

  /** One feed of a client: fetch its new posts, then try them. */
  method RunFeed(id: Json, config: Dict, feed: Feed, ledger: Ledger, links_postados: set<Json>, src: Sources)
    returns (links: set<Json>, run: FeedRun)
    modifies ledger
    ensures ledger.links == old(ledger.links) + OkTexts(run.attempts)
    ensures (links, run) == FeedStep(id, config, feed, links_postados, src)
  {
    var posts_para_gerar: seq<Post> := [];
    if feed.tipo == "rss" {
      posts_para_gerar := ProcessRssFeed(src.parseRss(feed.url), links_postados);
    } else if feed.tipo == "json" {
      posts_para_gerar := ProcessJsonFeed(src.fetchJson(feed.url), links_postados);
    }
    assert posts_para_gerar == Found(feed, links_postados, src);
    var attempts;
    links, attempts := TryPosts(id, config, posts_para_gerar, ledger, links_postados, src);
    run := FeedRun(id, feed, posts_para_gerar, attempts);
  }

  /** The feed loop of one client, over the feeds registered for it. */
  method RunFeeds(id: Json, config: Dict, feeds: seq<Feed>, ledger: Ledger, links_postados: set<Json>, src: Sources)
    returns (links: set<Json>, runs: seq<FeedRun>)
    modifies ledger
    ensures ledger.links == old(ledger.links) + CommittedTexts(runs)
    ensures (links, runs) == FeedsRun(id, config, feeds, links_postados, src)
  {
    links := links_postados;
    runs := [];
    var j := 0;
    ghost var rows := ledger.links;
    assert feeds[j..] == feeds;
    assert runs + FeedsRun(id, config, feeds, links, src).1 == FeedsRun(id, config, feeds, links, src).1;
    assert CommittedTexts(runs) == {};
    while j < |feeds|
      invariant 0 <= j <= |feeds|
      invariant ledger.links == rows + CommittedTexts(runs)
      invariant FeedsRun(id, config, feeds, links_postados, src) ==
        (FeedsRun(id, config, feeds[j..], links, src).0, runs + FeedsRun(id, config, feeds[j..], links, src).1)
    {
      ghost var seen, done, before := links, runs, ledger.links;
      var run;
      links, run := RunFeed(id, config, feeds[j], ledger, links, src);
      FeedsStep(id, config, feeds, j, seen, done, links, run, src);
      LedgerStep(rows, done, run, before, ledger.links);
      runs := runs + [run];
      j := j + 1;
    }
    assert feeds[j..] == [];
    assert runs + [] == runs;
  }

  /** One turn of the feed loop: the ledger gains the rows of the turn's run. */
  lemma LedgerStep(rows: set<string>, runs: seq<FeedRun>, run: FeedRun, before: set<string>, after: set<string>)
    requires before == rows + CommittedTexts(runs) && after == before + OkTexts(run.attempts)
    ensures after == rows + CommittedTexts(runs + [run])
  {
    CommittedTextsSnoc(runs, run);
  }

  /** One turn of the feed loop: the run still to go after the `j`-th feed. */
  lemma FeedsStep(id: Json, config: Dict, feeds: seq<Feed>, j: nat, seen: set<Json>, runs: seq<FeedRun>,
                  links: set<Json>, run: FeedRun, src: Sources)
    requires j < |feeds| && (links, run) == FeedStep(id, config, feeds[j], seen, src)
    ensures var now := FeedsRun(id, config, feeds[j..], seen, src);
      var rest := FeedsRun(id, config, feeds[j + 1..], links, src);
      (now.0, runs + now.1) == (rest.0, (runs + [run]) + rest.1)
  {
    assert feeds[j..][0] == feeds[j] && feeds[j..][1..] == feeds[j + 1..];
    var rest := FeedsRun(id, config, feeds[j + 1..], links, src);
    assert runs + ([run] + rest.1) == (runs + [run]) + rest.1;
  }

  /** One turn of the client loop: the run still to go after the `i`-th client. */
  lemma ClientsStep(clients: seq<Client>, i: nat, seen: set<Json>, log: seq<FeedRun>, src: Sources)
    requires i < |clients|
    ensures var c := clients[i];
      var now := ClientsRun(clients[i..], seen, src);
      && (!ConfigComplete(ConfigOf(c)) ==> now == ClientsRun(clients[i + 1..], seen, src))
      && (ConfigComplete(ConfigOf(c)) ==>
            var first := FeedsRun(c.id, ConfigOf(c), c.feeds, seen, src);
            var rest := ClientsRun(clients[i + 1..], first.0, src);
            (now.0, log + now.1) == (rest.0, (log + first.1) + rest.1))
  {
    var cs := clients[i..];
    assert cs[0] == clients[i] && cs[1..] == clients[i + 1..];
    ClientsHead(cs, seen, log, src);
  }

  lemma ClientsHead(cs: seq<Client>, seen: set<Json>, log: seq<FeedRun>, src: Sources)
    requires cs != []
    ensures var c := cs[0];
      var now := ClientsRun(cs, seen, src);
      && (!ConfigComplete(ConfigOf(c)) ==> now == ClientsRun(cs[1..], seen, src))
      && (ConfigComplete(ConfigOf(c)) ==>
            var first := FeedsRun(c.id, ConfigOf(c), c.feeds, seen, src);
            var rest := ClientsRun(cs[1..], first.0, src);
            (now.0, log + now.1) == (rest.0, (log + first.1) + rest.1))
  {
    var c := cs[0];
    if ConfigComplete(ConfigOf(c)) {
      var first := FeedsRun(c.id, ConfigOf(c), c.feeds, seen, src);
      var rest := ClientsRun(cs[1..], first.0, src);
      assert log + (first.1 + rest.1) == (log + first.1) + rest.1;
    }
  }

  /**
   * `iniciar_automacao`: the cycle reads every feed against the links loaded
   * from the ledger, and the ledger gains the text of each committed link.
   */
  method RunCycle(clients: seq<Client>, ledger: Ledger, src: Sources) returns (log: seq<FeedRun>)
    modifies ledger
    ensures log == ClientsRun(clients, Loaded(old(ledger.links)), src).1
    ensures ledger.links == old(ledger.links) + CommittedTexts(log)
  {
    var links_postados := Loaded(ledger.links);
    log := [];
    var i := 0;
    assert clients[i..] == clients;
    assert log + ClientsRun(clients, links_postados, src).1 == ClientsRun(clients, links_postados, src).1;
    assert CommittedTexts(log) == {};
    while i < |clients|
      invariant 0 <= i <= |clients|
      invariant ledger.links == old(ledger.links) + CommittedTexts(log)
      invariant ClientsRun(clients, Loaded(old(ledger.links)), src) ==
        (ClientsRun(clients[i..], links_postados, src).0, log + ClientsRun(clients[i..], links_postados, src).1)
    {
      var cliente := clients[i];
      ClientsStep(clients, i, links_postados, log, src);
      var config_cliente := ConfigOf(cliente);
      if !ConfigComplete(config_cliente) {
        i := i + 1;
        continue;
      }
      var runs;
      links_postados, runs := RunFeeds(cliente.id, config_cliente, cliente.feeds, ledger, links_postados, src);
      CommittedTextsAppend(log, runs);
      log := log + runs;
      i := i + 1;
    }
    assert clients[i..] == [];
    assert log + [] == log;
  }

  /** The links of the successful tries, as the in-memory set holds them. */
  function OkLinks(attempts: seq<Attempt>): set<Json> {
    set i | 0 <= i < |attempts| && attempts[i].ok :: HashKey(attempts[i].post.link)
  }

  /** The links committed over a sequence of feed runs. */
  function Committed(runs: seq<FeedRun>): set<Json> {
    if runs == [] then {} else OkLinks(runs[0].attempts) + Committed(runs[1..])
  }

  /** The ledger rows written for the successful tries. */
  function OkTexts(attempts: seq<Attempt>): set<string> {
    set i | 0 <= i < |attempts| && attempts[i].ok :: DbText(attempts[i].post.link)
  }

  /** The ledger rows written over a sequence of feed runs. */
  function CommittedTexts(runs: seq<FeedRun>): set<string> {
    if runs == [] then {} else OkTexts(runs[0].attempts) + CommittedTexts(runs[1..])
  }

  lemma OkTextsSnoc(attempts: seq<Attempt>, a: Attempt)
    ensures OkTexts(attempts + [a]) == OkTexts(attempts) + (if a.ok then {DbText(a.post.link)} else {})
  {
    var at := attempts + [a];
    forall t | t in OkTexts(at) ensures t in OkTexts(attempts) + (if a.ok then {DbText(a.post.link)} else {}) {
      var i :| 0 <= i < |at| && at[i].ok && DbText(at[i].post.link) == t;
      if i < |attempts| {
        assert at[i] == attempts[i];
      }
    }
    forall t | t in OkTexts(attempts) ensures t in OkTexts(at) {
      var i :| 0 <= i < |attempts| && attempts[i].ok && DbText(attempts[i].post.link) == t;
      assert at[i] == attempts[i];
    }
    if a.ok {
      assert at[|attempts|] == a;
    }
  }

  lemma {:induction false} CommittedTextsAppend(a: seq<FeedRun>, b: seq<FeedRun>)
    ensures CommittedTexts(a + b) == CommittedTexts(a) + CommittedTexts(b)
  {
    if a != [] {
      assert (a + b)[0] == a[0] && (a + b)[1..] == a[1..] + b;
      CommittedTextsAppend(a[1..], b);
    } else {
      assert a + b == b;
    }
  }

  lemma CommittedTextsSnoc(runs: seq<FeedRun>, r: FeedRun)
    ensures CommittedTexts(runs + [r]) == CommittedTexts(runs) + OkTexts(r.attempts)
  {
    CommittedTextsAppend(runs, [r]);
    assert [r][1..] == [];
  }

  /**
   * The tries are the posts taken from the end, one by one; every try but the
   * last succeeded; and the tries stop before the first post only at a failure.
   */
  predicate TriedInReverse(posts: seq<Post>, attempts: seq<Attempt>) {
    && |attempts| <= |posts|
    && (forall i :: 0 <= i < |attempts| ==> attempts[i].post == posts[|posts| - 1 - i])
    && (forall i :: 0 <= i < |attempts| - 1 ==> attempts[i].ok)
    && (|attempts| < |posts| ==> attempts != [] && !attempts[|attempts| - 1].ok)
  }

  /** A try succeeds exactly when the post's image is rendered and uploaded. */
  predicate OutcomesFaithful(id: Json, config: Dict, attempts: seq<Attempt>, src: Sources) {
    forall i :: 0 <= i < |attempts| ==> attempts[i].ok == AttemptOk(id, config, attempts[i].post, src)
  }

  lemma OkLinksCons(a: Attempt, rest: seq<Attempt>)
    ensures OkLinks([a] + rest) == (if a.ok then {HashKey(a.post.link)} else {}) + OkLinks(rest)
  {
    var at := [a] + rest;
    forall l | l in OkLinks(at) ensures l in (if a.ok then {HashKey(a.post.link)} else {}) + OkLinks(rest) {
      var i :| 0 <= i < |at| && at[i].ok && HashKey(at[i].post.link) == l;
      if i > 0 {
        assert rest[i - 1] == at[i];
      }
    }
    forall l | l in OkLinks(rest) ensures l in OkLinks(at) {
      var i :| 0 <= i < |rest| && rest[i].ok && HashKey(rest[i].post.link) == l;
      assert at[i + 1] == rest[i];
    }
    if a.ok {
      assert at[0] == a;
    }
  }

  /**
   * The item loop of one feed tries the posts from the last, commits exactly
   * the links of the successful tries, and stops at the first failure.
   */
  lemma {:induction false} ItemsRunFacts(id: Json, config: Dict, posts: seq<Post>, seen: set<Json>, src: Sources)
    ensures var r := ItemsRun(id, config, posts, seen, src);
      && r.0 == seen + OkLinks(r.1)
      && TriedInReverse(posts, r.1)
      && OutcomesFaithful(id, config, r.1, src)
    decreases |posts|
  {
    if posts != [] {
      var p := posts[|posts| - 1];
      var init := posts[..|posts| - 1];
      if AttemptOk(id, config, p, src) {
        var rest := ItemsRun(id, config, init, seen + {HashKey(p.link)}, src);
        ItemsRunFacts(id, config, init, seen + {HashKey(p.link)}, src);
        OkLinksCons(Attempt(p, true), rest.1);
        TriedCons(id, config, posts, rest.1, src);
      } else {
        assert OkLinks([Attempt(p, false)]) == {};
      }
    }
  }

  /** A successful try at the last post, then tries in reverse at the others, are tries in reverse at all of them. */
  lemma TriedCons(id: Json, config: Dict, posts: seq<Post>, rest: seq<Attempt>, src: Sources)
    requires posts != [] && AttemptOk(id, config, posts[|posts| - 1], src)
    requires TriedInReverse(posts[..|posts| - 1], rest) && OutcomesFaithful(id, config, rest, src)
    ensures TriedInReverse(posts, [Attempt(posts[|posts| - 1], true)] + rest)
    ensures OutcomesFaithful(id, config, [Attempt(posts[|posts| - 1], true)] + rest, src)
  {
    var init := posts[..|posts| - 1];
    var at := [Attempt(posts[|posts| - 1], true)] + rest;
    forall i | 0 < i < |at|
      ensures at[i] == rest[i - 1] && at[i].post == posts[|posts| - 1 - i]
    {
      assert rest[i - 1].post == init[|init| - 1 - (i - 1)];
    }
    if |at| < |posts| {
      assert at[|at| - 1] == rest[|rest| - 1];
    }
  }

  /** Every post of `posts` is complete and its link is not in `seen`. */
  predicate AllNew(posts: seq<Post>, seen: set<Json>) {
    forall p :: p in posts ==> IsNew(p, seen)
  }

  /** Each run found only posts that were new against the links posted before it started. */
  predicate FreshRuns(runs: seq<FeedRun>, seen: set<Json>) {
    forall k :: 0 <= k < |runs| ==> AllNew(runs[k].found, seen + Committed(runs[..k]))
  }

  /**
   * Each run belongs to client `id`, is for one of `feeds`, tried its posts in
   * reverse, and recorded each try as succeeding exactly when it did.
   */
  predicate RunsOf(runs: seq<FeedRun>, id: Json, config: Dict, feeds: seq<Feed>, src: Sources) {
    forall k :: 0 <= k < |runs| ==>
      && runs[k].client == id && runs[k].feed in feeds && TriedInReverse(runs[k].found, runs[k].attempts)
      && OutcomesFaithful(id, config, runs[k].attempts, src)
  }

  /** The client and feed of each turn of a client's feed loop, in order. */
  function FeedJobs(id: Json, feeds: seq<Feed>): (jobs: seq<(Json, Feed)>)
    ensures |jobs| == |feeds|
    ensures forall k :: 0 <= k < |jobs| ==> jobs[k] == (id, feeds[k])
    decreases |feeds|
  {
    if feeds == [] then [] else [(id, feeds[0])] + FeedJobs(id, feeds[1..])
  }

  /** The client and feed of each turn of the whole cycle: the feeds of the complete clients, client by client. */
  function CycleJobs(clients: seq<Client>): seq<(Json, Feed)>
    decreases |clients|
  {
    if clients == [] then []
    else
      var c := clients[0];
      (if ConfigComplete(ConfigOf(c)) then FeedJobs(c.id, c.feeds) else []) + CycleJobs(clients[1..])
  }

  /** The run is for the job's client and feed, and found the feed's posts new against `before`. */
  predicate ReadFrom(run: FeedRun, job: (Json, Feed), before: set<Json>, src: Sources) {
    && run.client == job.0
    && run.feed == job.1
    && run.found == Found(job.1, before, src)
  }

  /**
   * The `k`-th run is for the `k`-th job and read its feed against the
   * starting links plus everything committed by the runs before it.
   */
  predicate ReadAt(runs: seq<FeedRun>, jobs: seq<(Json, Feed)>, seen: set<Json>, src: Sources, k: nat) {
    k < |runs| && k < |jobs| && ReadFrom(runs[k], jobs[k], seen + Committed(runs[..k]), src)
  }

  /** There is one run per job, in order, and each read its feed after the runs before it. */
  predicate ReadsInOrder(runs: seq<FeedRun>, jobs: seq<(Json, Feed)>, seen: set<Json>, src: Sources) {
    && |runs| == |jobs|
    && forall k :: 0 <= k < |runs| ==> ReadAt(runs, jobs, seen, src, k)
  }

  lemma CommittedCons(r: FeedRun, runs: seq<FeedRun>)
    ensures Committed([r] + runs) == OkLinks(r.attempts) + Committed(runs)
  {
    assert ([r] + runs)[1..] == runs;
  }

  /**
   * The feed loop of a client: it reads every feed of the client once, in
   * order, each against the links of the earlier ones, and the set grows by
   * exactly the committed links.
   */
  lemma {:induction false} FeedsRunFacts(id: Json, config: Dict, feeds: seq<Feed>, seen: set<Json>, src: Sources)
    ensures var r := FeedsRun(id, config, feeds, seen, src);
      && r.0 == seen + Committed(r.1)
      && ReadsInOrder(r.1, FeedJobs(id, feeds), seen, src)
      && FreshRuns(r.1, seen)
      && RunsOf(r.1, id, config, feeds, src)
    decreases |feeds|
  {
    var r := FeedsRun(id, config, feeds, seen, src);
    if feeds != [] {
      var first := FeedStep(id, config, feeds[0], seen, src);
      var run0 := first.1;
      ItemsRunFacts(id, config, run0.found, seen, src);
      var s1 := first.0;
      assert s1 == seen + OkLinks(run0.attempts);
      var rest := FeedsRun(id, config, feeds[1..], s1, src);
      FeedsRunFacts(id, config, feeds[1..], s1, src);
      CommittedCons(run0, rest.1);
      ReadsCons(run0, rest.1, (id, feeds[0]), FeedJobs(id, feeds[1..]), seen, src);
      RunsOfCons(run0, rest.1, id, config, feeds, src);
    }
    ReadsAreFresh(r.1, FeedJobs(id, feeds), seen, src);
  }

  /** Runs that read their feeds in order found only posts new against the links posted before them. */
  lemma ReadsAreFresh(runs: seq<FeedRun>, jobs: seq<(Json, Feed)>, seen: set<Json>, src: Sources)
    requires ReadsInOrder(runs, jobs, seen, src)
    ensures FreshRuns(runs, seen)
  {
    forall k | 0 <= k < |runs| ensures AllNew(runs[k].found, seen + Committed(runs[..k])) {
      assert ReadAt(runs, jobs, seen, src, k);
    }
  }

  /** A run of the first job read from `seen`, followed by runs in order from what it committed, are runs in order. */
  lemma ReadsCons(run0: FeedRun, rest: seq<FeedRun>, job: (Json, Feed), jobs: seq<(Json, Feed)>, seen: set<Json>, src: Sources)
    requires run0.client == job.0 && run0.feed == job.1 && run0.found == Found(job.1, seen, src)
    requires ReadsInOrder(rest, jobs, seen + OkLinks(run0.attempts), src)
    ensures ReadsInOrder([run0] + rest, [job] + jobs, seen, src)
  {
    assert [run0][..0] == [];
    assert seen + Committed([run0][..0]) == seen;
    assert ReadAt([run0], [job], seen, src, 0);
    CommittedCons(run0, []);
    assert [run0] + [] == [run0];
    assert Committed([run0]) == OkLinks(run0.attempts);
    ReadsAppend([run0], rest, [job], jobs, seen, src);
  }

  /** A run for the first feed, followed by runs for the remaining feeds, are all runs for the feeds. */
  lemma RunsOfCons(run0: FeedRun, rest: seq<FeedRun>, id: Json, config: Dict, feeds: seq<Feed>, src: Sources)
    requires feeds != [] && run0.client == id && run0.feed == feeds[0]
    requires TriedInReverse(run0.found, run0.attempts) && OutcomesFaithful(id, config, run0.attempts, src)
    requires RunsOf(rest, id, config, feeds[1..], src)
    ensures RunsOf([run0] + rest, id, config, feeds, src)
  {
    var runs := [run0] + rest;
    forall k | 0 <= k < |runs|
      ensures runs[k].client == id && runs[k].feed in feeds && TriedInReverse(runs[k].found, runs[k].attempts)
      ensures OutcomesFaithful(id, config, runs[k].attempts, src)
    {
      if k > 0 {
        assert runs[k] == rest[k - 1];
        assert rest[k - 1].feed in feeds[1..];
      }
    }
  }

  lemma {:induction false} CommittedAppend(a: seq<FeedRun>, b: seq<FeedRun>)
    ensures Committed(a + b) == Committed(a) + Committed(b)
  {
    if a != [] {
      assert a + b == [a[0]] + (a[1..] + b);
      CommittedCons(a[0], a[1..] + b);
      CommittedAppend(a[1..], b);
    } else {
      assert a + b == b;
    }
  }

  /**
   * The run is for a feed of a client of `clients` whose settings are
   * complete, and each of its tries succeeded exactly when rendering and
   * uploading for that client did.
   */
  predicate ByCompleteClient(r: FeedRun, clients: seq<Client>, src: Sources) {
    exists i :: 0 <= i < |clients| && ByClient(r, clients[i], src)
  }

  /** The run is for a feed of complete client `c`, with the outcomes its tries had for `c`. */
  predicate ByClient(r: FeedRun, c: Client, src: Sources) {
    && c.id == r.client && ConfigComplete(ConfigOf(c)) && r.feed in c.feeds
    && OutcomesFaithful(c.id, ConfigOf(c), r.attempts, src)
  }

  /** Each run comes from a complete client, tried its posts in reverse and recorded their true outcomes. */
  predicate RunsFrom(runs: seq<FeedRun>, clients: seq<Client>, src: Sources) {
    forall k :: 0 <= k < |runs| ==> ByCompleteClient(runs[k], clients, src) && TriedInReverse(runs[k].found, runs[k].attempts)
  }

  /** A run of the first part of `a + b` read its feed as it did in `a`. */
  lemma ReadsInFirst(a: seq<FeedRun>, b: seq<FeedRun>, ja: seq<(Json, Feed)>, jb: seq<(Json, Feed)>,
                     seen: set<Json>, src: Sources, k: nat)
    requires k < |a| && ReadsInOrder(a, ja, seen, src)
    ensures ReadAt(a + b, ja + jb, seen, src, k)
  {
    assert ReadAt(a, ja, seen, src, k);
    PrefixAt(a, b, k);
    PrefixAt(ja, jb, k);
  }

  lemma PrefixAt<T>(x: seq<T>, y: seq<T>, k: nat)
    requires k < |x|
    ensures (x + y)[k] == x[k] && (x + y)[..k] == x[..k]
  {
  }

  /** A run of the second part of `a + b` read its feed as it did in `b`, which started after the links of `a`. */
  lemma ReadsInSecond(a: seq<FeedRun>, b: seq<FeedRun>, ja: seq<(Json, Feed)>, jb: seq<(Json, Feed)>,
                      seen: set<Json>, src: Sources, k: nat)
    requires |a| == |ja| && |a| <= k < |a| + |b| && ReadsInOrder(b, jb, seen + Committed(a), src)
    ensures ReadAt(a + b, ja + jb, seen, src, k)
  {
    assert ReadAt(b, jb, seen + Committed(a), src, k - |a|);
    CommittedPrefix(a, b, k, seen);
    AppendAt(a, b, k, |a|);
    AppendAt(ja, jb, k, |a|);
  }

  lemma AppendAt<T>(x: seq<T>, y: seq<T>, k: nat, n: nat)
    requires n == |x| <= k < |x| + |y|
    ensures (x + y)[k] == y[k - n]
  {
  }

  /** The links known before the run at `k` of `a + b`, when it is one of `b`. */
  lemma CommittedPrefix(a: seq<FeedRun>, b: seq<FeedRun>, k: nat, seen: set<Json>)
    requires |a| <= k <= |a| + |b|
    ensures seen + Committed((a + b)[..k]) == (seen + Committed(a)) + Committed(b[..k - |a|])
  {
    assert (a + b)[..k] == a + b[..k - |a|];
    CommittedAppend(a, b[..k - |a|]);
  }

  /** Runs in order for `ja`, then runs in order for `jb` from where the first left the set, are runs in order for `ja + jb`. */
  lemma ReadsAppend(a: seq<FeedRun>, b: seq<FeedRun>, ja: seq<(Json, Feed)>, jb: seq<(Json, Feed)>, seen: set<Json>, src: Sources)
    requires ReadsInOrder(a, ja, seen, src) && ReadsInOrder(b, jb, seen + Committed(a), src)
    ensures ReadsInOrder(a + b, ja + jb, seen, src)
  {
    forall k | 0 <= k < |a + b| ensures ReadAt(a + b, ja + jb, seen, src, k) {
      if k < |a| {
        ReadsInFirst(a, b, ja, jb, seen, src, k);
      } else {
        ReadsInSecond(a, b, ja, jb, seen, src, k);
      }
    }
  }

  /**
   * The client loop: it reads the feeds of the complete clients, client by
   * client and feed by feed, each against the starting links plus everything
   * committed before it; the final set is the initial one plus the committed
   * links; and only complete clients have runs.
   */
  lemma {:induction false} ClientsRunFacts(clients: seq<Client>, seen: set<Json>, src: Sources)
    ensures var r := ClientsRun(clients, seen, src);
      && r.0 == seen + Committed(r.1)
      && ReadsInOrder(r.1, CycleJobs(clients), seen, src)
      && FreshRuns(r.1, seen)
      && RunsFrom(r.1, clients, src)
    decreases |clients|
  {
    var r := ClientsRun(clients, seen, src);
    if clients != [] {
      var c := clients[0];
      var later := clients[1..];
      if !ConfigComplete(ConfigOf(c)) {
        ClientsRunFacts(later, seen, src);
        assert CycleJobs(clients) == [] + CycleJobs(later) == CycleJobs(later);
        RunsFromLater(clients, ClientsRun(later, seen, src).1, src);
      } else {
        var first := FeedsRun(c.id, ConfigOf(c), c.feeds, seen, src);
        FeedsRunFacts(c.id, ConfigOf(c), c.feeds, seen, src);
        var rest := ClientsRun(later, first.0, src);
        ClientsRunFacts(later, first.0, src);
        CommittedAppend(first.1, rest.1);
        ReadsAppend(first.1, rest.1, FeedJobs(c.id, c.feeds), CycleJobs(later), seen, src);
        RunsFromFirst(clients, first.1, rest.1, src);
      }
    }
    ReadsAreFresh(r.1, CycleJobs(clients), seen, src);
  }

  /** Runs from the clients after the first are runs from all of them. */
  lemma RunsFromLater(clients: seq<Client>, runs: seq<FeedRun>, src: Sources)
    requires clients != [] && RunsFrom(runs, clients[1..], src)
    ensures RunsFrom(runs, clients, src)
  {
    var later := clients[1..];
    forall k | 0 <= k < |runs| ensures ByCompleteClient(runs[k], clients, src) {
      var i :| 0 <= i < |later| && ByClient(runs[k], later[i], src);
      assert clients[i + 1] == later[i];
    }
  }

  /** The runs of a complete first client, then runs from the clients after it, are runs from all of them. */
  lemma RunsFromFirst(clients: seq<Client>, first: seq<FeedRun>, rest: seq<FeedRun>, src: Sources)
    requires clients != [] && ConfigComplete(ConfigOf(clients[0]))
    requires RunsOf(first, clients[0].id, ConfigOf(clients[0]), clients[0].feeds, src)
    requires RunsFrom(rest, clients[1..], src)
    ensures RunsFrom(first + rest, clients, src)
  {
    var later := clients[1..];
    var runs := first + rest;
    forall k | 0 <= k < |runs| ensures ByCompleteClient(runs[k], clients, src) && TriedInReverse(runs[k].found, runs[k].attempts) {
      if k < |first| {
        assert runs[k] == first[k];
        assert ByClient(runs[k], clients[0], src);
      } else {
        assert runs[k] == rest[k - |first|];
        var i :| 0 <= i < |later| && ByClient(runs[k], later[i], src);
        assert clients[i + 1] == later[i];
      }
    }
  }

  /** A link committed by some run is among the links committed by the whole sequence. */
  lemma {:induction false} CommittedHas(runs: seq<FeedRun>, a: nat)
    requires a < |runs|
    ensures OkLinks(runs[a].attempts) <= Committed(runs)
  {
    if a > 0 {
      CommittedHas(runs[1..], a - 1);
      assert runs[1..][a - 1] == runs[a];
    }
  }

  /** A tried post is one of the posts its run found. */
  lemma TriedWasFound(r: FeedRun, i: nat)
    requires TriedInReverse(r.found, r.attempts) && i < |r.attempts|
    ensures r.attempts[i].post in r.found
  {
    assert r.attempts[i].post == r.found[|r.found| - 1 - i];
  }

  /**
   * A post is never tried again once its link is in the ledger: every try of
   * a cycle is of a complete post whose link the ledger did not hold when the
   * cycle started.
   */
  lemma NeverRetried(clients: seq<Client>, seen: set<Json>, src: Sources, k: nat, i: nat)
    requires var log := ClientsRun(clients, seen, src).1; k < |log| && i < |log[k].attempts|
    ensures IsNew(ClientsRun(clients, seen, src).1[k].attempts[i].post, seen)
  {
    var log := ClientsRun(clients, seen, src).1;
    ClientsRunFacts(clients, seen, src);
    TriedWasFound(log[k], i);
    assert AllNew(log[k].found, seen + Committed(log[..k]));
  }

  /**
   * No repost across feeds: once a run committed a link, no later run of the
   * same cycle, for this client's other feeds or for later clients, tries a
   * post with that link.
   */
  lemma NoRepost(clients: seq<Client>, seen: set<Json>, src: Sources, a: nat, i: nat, b: nat, j: nat)
    requires var log := ClientsRun(clients, seen, src).1;
      && a < b < |log|
      && i < |log[a].attempts| && log[a].attempts[i].ok
      && j < |log[b].attempts|
    ensures var log := ClientsRun(clients, seen, src).1;
      HashKey(log[a].attempts[i].post.link) != HashKey(log[b].attempts[j].post.link)
  {
    var log := ClientsRun(clients, seen, src).1;
    ClientsRunFacts(clients, seen, src);
    var link := log[a].attempts[i].post.link;
    assert HashKey(link) in OkLinks(log[a].attempts);
    CommittedHas(log[..b], a);
    assert log[..b][a] == log[a];
    TriedWasFound(log[b], j);
    assert AllNew(log[b].found, seen + Committed(log[..b]));
  }

  /** A row written for some run is among the rows written over the whole sequence. */
  lemma {:induction false} CommittedTextsHas(runs: seq<FeedRun>, a: nat)
    requires a < |runs|
    ensures OkTexts(runs[a].attempts) <= CommittedTexts(runs)
  {
    if a > 0 {
      CommittedTextsHas(runs[1..], a - 1);
      assert runs[1..][a - 1] == runs[a];
    }
  }

  /**
   * Across cycles, a string link is not posted again: once a cycle commits
   * it, the next cycle, which starts from the rows the first one left in the
   * ledger, never tries a post with that link.
   */
  lemma StringLinkNotReposted(clients: seq<Client>, rows: set<string>, src: Sources, a: nat, i: nat,
                              clients2: seq<Client>, src2: Sources, b: nat, j: nat)
    requires var log := ClientsRun(clients, Loaded(rows), src).1;
      && a < |log| && i < |log[a].attempts| && log[a].attempts[i].ok
      && log[a].attempts[i].post.link.JString?
    requires var log := ClientsRun(clients, Loaded(rows), src).1;
      var log2 := ClientsRun(clients2, Loaded(rows + CommittedTexts(log)), src2).1;
      b < |log2| && j < |log2[b].attempts|
    ensures var log := ClientsRun(clients, Loaded(rows), src).1;
      var log2 := ClientsRun(clients2, Loaded(rows + CommittedTexts(log)), src2).1;
      log2[b].attempts[j].post.link != log[a].attempts[i].post.link
  {
    var log := ClientsRun(clients, Loaded(rows), src).1;
    var rows2 := rows + CommittedTexts(log);
    var link := log[a].attempts[i].post.link;
    assert DbText(link) in OkTexts(log[a].attempts);
    CommittedTextsHas(log, a);
    assert link in Loaded(rows2);
    NeverRetried(clients2, Loaded(rows2), src2, b, j);
  }

  /**
   * A link that is not a string (a number or a boolean in a JSON feed) is
   * never recognised from the ledger, whose rows come back as strings: a
   * complete post with such a link is new at the start of every cycle.
   */
  lemma NonStringLinkAlwaysNew(p: Post, rows: set<string>)
    requires Complete(p) && !p.link.JString?
    ensures IsNew(p, Loaded(rows))
  {
  }

  /**
   * Links are not deduplicated inside one feed: a feed listing the same new
   * post twice has it tried, and rendered and uploaded, twice.
   */
  lemma DuplicateTriedTwice(id: Json, config: Dict, p: Post, seen: set<Json>, src: Sources)
    requires IsNew(p, seen) && AttemptOk(id, config, p, src)
    ensures FilterNew([p, p], seen) == [p, p]
    ensures ItemsRun(id, config, [p, p], seen, src).1 == [Attempt(p, true), Attempt(p, true)]
  {
    assert [p, p][..1] == [p];
    assert [p][..0] == [];
    FilterNewSnoc([], p, seen);
    FilterNewSnoc([p], p, seen);
    var s1 := seen + {HashKey(p.link)};
    assert ItemsRun(id, config, [p], s1, src).1 == [Attempt(p, true)] + ItemsRun(id, config, [], s1 + {HashKey(p.link)}, src).1;
    assert ItemsRun(id, config, [p], s1, src).1 == [Attempt(p, true)];
  }
}
