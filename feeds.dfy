/**
 * Reading a client's news feeds (`processar_feed_rss`, `processar_feed_json`):
 * each entry becomes a post with a title, a text and a link, the text and the
 * link falling back through alternative keys; a post is new when all three are
 * truthy and its link has not been posted yet. Any failure while fetching or
 * reading a feed gives no posts at all.
 */
module Feeds {

  import opened Wrappers
  import opened Values

  /** A news item, as the dict `{'titulo': ..., 'texto': ..., 'link': ...}` built for it. */
  datatype Post = Post(titulo: Json, texto: Json, link: Json)

  /** What the RSS parser returns: whether the document was malformed (`bozo`), and its entries. */
  datatype RssParse = RssParse(bozo: bool, entries: seq<map<string, string>>)

  /** A JSON feed download: the decoded document, or a failure (request error, error status, invalid JSON). */
  datatype JsonFetch = Fetched(doc: Json) | FetchFailed

  /** Link, title and text are all truthy (`all([link, titulo, texto])`). */
  predicate Complete(p: Post) {
    Truthy(p.link) && Truthy(p.titulo) && Truthy(p.texto)
  }

  /**
   * The post is kept: it is complete and its link is not among the links
   * already posted, `seen`, compared as a Python set compares (`HashKey`).
   */
  predicate IsNew(p: Post, seen: set<Json>) {
    Complete(p) && HashKey(p.link) !in seen
  }

  /**
   * The posts of `posts` that are complete and whose link is not in `seen`,
   * in their original order.
   */
  function FilterNew(posts: seq<Post>, seen: set<Json>): (r: seq<Post>)
    ensures |r| <= |posts|
    ensures forall p :: p in r ==> p in posts && IsNew(p, seen)
  {
    if posts == [] then []
    else FilterNew(posts[..|posts| - 1], seen) + (if IsNew(posts[|posts| - 1], seen) then [posts[|posts| - 1]] else [])
  }

  /** An RSS entry as a dict of strings. */
  function EntryDict(entry: map<string, string>): (d: Dict)
    ensures forall k :: k in d <==> k in entry
    ensures forall k :: k in entry ==> d[k] == JString(entry[k])
  {
    map k | k in entry :: JString(entry[k])
  }

  /** The post read from an RSS entry: the text is `summary`, or else `description`, or else `''`. */
  function RssPost(entry: map<string, string>): (p: Post)
    ensures p.link.JString? || p.link == JNull
    ensures Truthy(p.texto) <==>
      ("summary" in entry && entry["summary"] != "") || ("description" in entry && entry["description"] != "")
  {
    var d := EntryDict(entry);
    Post(Get(d, "title", JNull), Or(Get(d, "summary", JNull), Get(d, "description", JString(""))), Get(d, "link", JNull))
  }

  /** The posts read from the RSS entries, one per entry. */
  function RssPosts(entries: seq<map<string, string>>): (ps: seq<Post>)
    ensures |ps| == |entries|
    ensures forall i :: 0 <= i < |entries| ==> ps[i] == RssPost(entries[i])
  {
    if entries == [] then [] else RssPosts(entries[..|entries| - 1]) + [RssPost(entries[|entries| - 1])]
  }

  /** What `processar_feed_rss` returns for a parse result: nothing for a malformed feed. */
  function RssFeedPosts(parsed: RssParse, seen: set<Json>): (posts: seq<Post>)
    ensures parsed.bozo ==> posts == []
    ensures |posts| <= |parsed.entries|
  {
    if parsed.bozo then [] else FilterNew(RssPosts(parsed.entries), seen)
  }

  /**
   * The post read from a JSON item: the link is `link`, or else `url`; the
   * text is `summary`, or else `description`, or else `content`, or else `''`.
   */
  function JsonPost(item: Dict): (p: Post)
    ensures Truthy(p.link) <==> Truthy(Get(item, "link", JNull)) || Truthy(Get(item, "url", JNull))
    ensures Truthy(p.texto) <==>
      Truthy(Get(item, "summary", JNull)) || Truthy(Get(item, "description", JNull)) || Truthy(Get(item, "content", JString("")))
  {
    Post(Get(item, "title", JNull),
         Or(Or(Get(item, "summary", JNull), Get(item, "description", JNull)), Get(item, "content", JString(""))),
         Or(Get(item, "link", JNull), Get(item, "url", JNull)))
  }

  /**
   * The list of news in a JSON document: `items` if truthy, else `articles` if
   * truthy, else the document itself. `None` when that is not a list, and when
   * the document is not an object (a top-level list has no `.get`).
   */
  function NewsList(doc: Json): (items: Option<seq<Json>>)
    ensures !doc.JObject? ==> items.None?
    ensures doc.JObject? ==>
      var it := Get(doc.fields, "items", JNull);
      var ar := Get(doc.fields, "articles", JNull);
      && (Truthy(it) ==> (items.Some? <==> it.JArray?) && (it.JArray? ==> items.value == it.elems))
      && (!Truthy(it) && Truthy(ar) ==> (items.Some? <==> ar.JArray?) && (ar.JArray? ==> items.value == ar.elems))
      && (!Truthy(it) && !Truthy(ar) ==> items.None?)
  {
    if !doc.JObject? then None
    else
      var l := Or(Or(Get(doc.fields, "items", JNull), Get(doc.fields, "articles", JNull)), doc);
      if l.JArray? then Some(l.elems) else None
  }

  /** Every item is an object, so `item.get` does not raise. */
  predicate AllObjects(items: seq<Json>) {
    forall i :: 0 <= i < |items| ==> items[i].JObject?
  }

  /** The posts read from JSON items that are all objects. */
  function JsonPosts(items: seq<Json>): (ps: seq<Post>)
    requires AllObjects(items)
    ensures |ps| == |items|
    ensures forall i :: 0 <= i < |items| ==> ps[i] == JsonPost(items[i].fields)
  {
    if items == [] then [] else JsonPosts(items[..|items| - 1]) + [JsonPost(items[|items| - 1].fields)]
  }

  /** A complete post whose link is a list or object: testing it against the set of links raises. */
  predicate RaisesOnLookup(posts: seq<Post>) {
    exists i :: 0 <= i < |posts| && Complete(posts[i]) && !Hashable(posts[i].link)
  }

  /** What `processar_feed_json` returns: nothing when the fetch fails or any step raises. */
  function JsonFeedPosts(fetched: JsonFetch, seen: set<Json>): (posts: seq<Post>)
    ensures fetched.FetchFailed? || !fetched.doc.JObject? ==> posts == []
    ensures fetched.Fetched? && NewsList(fetched.doc).Some? ==> |posts| <= |NewsList(fetched.doc).value|
  {
    if fetched.FetchFailed? then []
    else
      var items := NewsList(fetched.doc);
      if items.None? || !AllObjects(items.value) then []
      else if RaisesOnLookup(JsonPosts(items.value)) then []
      else FilterNew(JsonPosts(items.value), seen)
  }

  /** The filter over one more post. */
  lemma FilterNewSnoc(posts: seq<Post>, p: Post, seen: set<Json>)
    ensures FilterNew(posts + [p], seen) == FilterNew(posts, seen) + (if IsNew(p, seen) then [p] else [])
  {
    assert (posts + [p])[..|posts|] == posts;
  }

  /** `processar_feed_rss`. */
  method ProcessRssFeed(parsed: RssParse, links_postados: set<Json>) returns (novos_posts: seq<Post>)
    ensures novos_posts == RssFeedPosts(parsed, links_postados)
  {
    if parsed.bozo {
      return [];
    }
    novos_posts := [];
    var i := 0;
    while i < |parsed.entries|
      invariant 0 <= i <= |parsed.entries|
      invariant novos_posts == FilterNew(RssPosts(parsed.entries[..i]), links_postados)
    {
      var post := RssPost(parsed.entries[i]);
      RssStep(parsed.entries, i, links_postados);
      i := i + 1;
      if !(Truthy(post.link) && Truthy(post.titulo) && Truthy(post.texto)) {
        continue;
      }
      if HashKey(post.link) !in links_postados {
        novos_posts := novos_posts + [post];
      }
    }
    assert parsed.entries[..i] == parsed.entries;
  }

  /** One more entry: one more post, kept when it is new. */
  lemma RssStep(entries: seq<map<string, string>>, i: nat, seen: set<Json>)
    requires i < |entries|
    ensures var p := RssPost(entries[i]);
      FilterNew(RssPosts(entries[..i + 1]), seen) == FilterNew(RssPosts(entries[..i]), seen) + (if IsNew(p, seen) then [p] else [])
  {
    var next := entries[..i + 1];
    assert next[..i] == entries[..i] && next[i] == entries[i];
    assert RssPosts(next) == RssPosts(entries[..i]) + [RssPost(entries[i])];
    FilterNewSnoc(RssPosts(entries[..i]), RssPost(entries[i]), seen);
  }

  /** `processar_feed_json`. */
  method ProcessJsonFeed(fetched: JsonFetch, links_postados: set<Json>) returns (novos_posts: seq<Post>)
    ensures novos_posts == JsonFeedPosts(fetched, links_postados)
  {
    if fetched.FetchFailed? {
      return [];
    }
    var items := NewsList(fetched.doc);
    if items.None? {
      return [];
    }
    var lista := items.value;
    novos_posts := [];
    var i := 0;
    while i < |lista|
      invariant 0 <= i <= |lista|
      invariant AllObjects(lista[..i])
      invariant !RaisesOnLookup(JsonPosts(lista[..i]))
      invariant novos_posts == FilterNew(JsonPosts(lista[..i]), links_postados)
    {
      var item := lista[i];
      if !item.JObject? {
        assert !AllObjects(lista);
        return [];
      }
      var post := JsonPost(item.fields);
      JsonStep(lista, i, links_postados);
      if !(Truthy(post.link) && Truthy(post.titulo) && Truthy(post.texto)) {
        i := i + 1;
        continue;
      }
      if !Hashable(post.link) {
        RaisesPrefix(lista, i);
        return [];
      }
      if HashKey(post.link) !in links_postados {
        novos_posts := novos_posts + [post];
      }
      i := i + 1;
    }
    assert lista[..i] == lista;
  }

  /** One more item that is an object: one more post, and the lookup raises exactly when it raises for that post. */
  lemma JsonStep(lista: seq<Json>, i: nat, seen: set<Json>)
    requires i < |lista| && AllObjects(lista[..i]) && lista[i].JObject?
    ensures AllObjects(lista[..i + 1])
    ensures var p := JsonPost(lista[i].fields);
      && JsonPosts(lista[..i + 1]) == JsonPosts(lista[..i]) + [p]
      && (RaisesOnLookup(JsonPosts(lista[..i + 1])) <==>
            RaisesOnLookup(JsonPosts(lista[..i])) || (Complete(p) && !Hashable(p.link)))
      && FilterNew(JsonPosts(lista[..i + 1]), seen) == FilterNew(JsonPosts(lista[..i]), seen) + (if IsNew(p, seen) then [p] else [])
  {
    JsonPostsSnoc(lista, i);
    var ps := JsonPosts(lista[..i]);
    var p := JsonPost(lista[i].fields);
    RaisesSnoc(ps, p);
    FilterNewSnoc(ps, p, seen);
  }

  /** The posts of one more item that is an object: one more post at the end. */
  lemma JsonPostsSnoc(lista: seq<Json>, i: nat)
    requires i < |lista| && AllObjects(lista[..i]) && lista[i].JObject?
    ensures AllObjects(lista[..i + 1])
    ensures JsonPosts(lista[..i + 1]) == JsonPosts(lista[..i]) + [JsonPost(lista[i].fields)]
  {
    var next := lista[..i + 1];
    assert next[..i] == lista[..i] && next[i] == lista[i];
    forall j | 0 <= j < |next| ensures next[j].JObject? {
      if j < i { assert next[j] == lista[..i][j]; }
    }
  }

  /** The lookup raises over one more post exactly when it raised before or raises for that post. */
  lemma RaisesSnoc(ps: seq<Post>, p: Post)
    ensures RaisesOnLookup(ps + [p]) <==> RaisesOnLookup(ps) || (Complete(p) && !Hashable(p.link))
  {
    if RaisesOnLookup(ps) {
      var j :| 0 <= j < |ps| && Complete(ps[j]) && !Hashable(ps[j].link);
      assert (ps + [p])[j] == ps[j];
    }
    if Complete(p) && !Hashable(p.link) {
      assert (ps + [p])[|ps|] == p;
    }
    if RaisesOnLookup(ps + [p]) {
      var j :| 0 <= j < |ps + [p]| && Complete((ps + [p])[j]) && !Hashable((ps + [p])[j].link);
      if j < |ps| {
        assert (ps + [p])[j] == ps[j];
      }
    }
  }

  /** An item that raises raises in the whole list. */
  lemma RaisesPrefix(lista: seq<Json>, i: nat)
    requires i < |lista| && AllObjects(lista[..i + 1])
    requires var p := JsonPost(lista[i].fields); Complete(p) && !Hashable(p.link)
    ensures AllObjects(lista) ==> RaisesOnLookup(JsonPosts(lista))
  {
    if AllObjects(lista) {
      assert JsonPosts(lista)[i] == JsonPost(lista[i].fields);
    }
  }

  /** A post is kept exactly when it is in the feed, complete, and its link is not yet posted. */
  lemma {:induction false} FilterNewMembers(posts: seq<Post>, seen: set<Json>, p: Post)
    ensures p in FilterNew(posts, seen) <==> p in posts && IsNew(p, seen)
  {
    if posts != [] {
      var init, last := posts[..|posts| - 1], posts[|posts| - 1];
      assert posts == init + [last];
      FilterNewMembers(init, seen, p);
    }
  }

  /** Filtering two runs of posts is filtering each and joining the results, so feed order is kept. */
  lemma {:induction false} FilterNewAppend(a: seq<Post>, b: seq<Post>, seen: set<Json>)
    ensures FilterNew(a + b, seen) == FilterNew(a, seen) + FilterNew(b, seen)
  {
    if b != [] {
      var init, last := b[..|b| - 1], b[|b| - 1];
      assert b == init + [last];
      assert a + b == (a + init) + [last];
      FilterNewAppend(a, init, seen);
      FilterNewSnoc(a + init, last, seen);
      FilterNewSnoc(init, last, seen);
    } else {
      assert a + b == a;
    }
  }

  /**
   * Filtering again against a larger set of posted links is filtering once
   * against it: links posted meanwhile drop out and nothing comes back.
   */
  lemma {:induction false} FilterNewAgain(posts: seq<Post>, seen: set<Json>, seen': set<Json>)
    requires seen <= seen'
    ensures FilterNew(FilterNew(posts, seen), seen') == FilterNew(posts, seen')
  {
    if posts != [] {
      var init, last := posts[..|posts| - 1], posts[|posts| - 1];
      FilterNewAgain(init, seen, seen');
      var keep := if IsNew(last, seen) then [last] else [];
      FilterNewAppend(FilterNew(init, seen), keep, seen');
      if IsNew(last, seen) {
        FilterNewSnoc([], last, seen');
      }
    }
  }

  /** Every post an RSS feed yields is complete and new, and its link is a string. */
  lemma RssFeedPostsNew(parsed: RssParse, seen: set<Json>, p: Post)
    requires p in RssFeedPosts(parsed, seen)
    ensures IsNew(p, seen) && !parsed.bozo && p.link.JString?
  {
    FilterNewMembers(RssPosts(parsed.entries), seen, p);
  }

  /**
   * Every post a JSON feed yields is complete and new, came from a fetched
   * object document, and has a link that can be looked up in a set.
   */
  lemma JsonFeedPostsNew(fetched: JsonFetch, seen: set<Json>, p: Post)
    requires p in JsonFeedPosts(fetched, seen)
    ensures IsNew(p, seen) && fetched.Fetched? && fetched.doc.JObject? && Hashable(p.link)
  {
    var ps := JsonPosts(NewsList(fetched.doc).value);
    FilterNewMembers(ps, seen, p);
    var i :| 0 <= i < |ps| && ps[i] == p;
    assert !RaisesOnLookup(ps);
  }
}
