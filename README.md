# POST-GERAL: a verified model of the feed-to-image posting pipeline

POST-GERAL polls each client's news feeds (RSS or JSON) and renders a branded
1080x1080 image for every new item. It publishes that image to WordPress,
Instagram and Facebook. This project models in Dafny the decision and
arithmetic layer of that pipeline and proves properties about it. Every
download, upload, database query and pixel operation is an abstract step that
succeeds or fails.

The modules follow the two source files:

- `Values` (values.dfy): the decoded JSON values the pipeline reads, and the
  Python semantics it relies on. These are truthiness, `dict.get` with a
  default, `or`, hashability, integer-like values and `str()`.
- `TextWrap` (textwrap.dfy): `processar_texto`, the greedy word wrap of the
  title. The glyph-width measurement of the title font is a parameter
  `width: string -> nat`. The method keeps the loop of the source and is
  proved against a declarative predicate, `GreedyWrap`, on the word lists of
  the lines.
- `HexColor` (hexcolor.dfy): `hex_para_rgb`. Leading `#`s are stripped and the
  slices `[0:2]`, `[2:4]`, `[4:6]` are read as base-16 integers. A slice that
  does not parse is the `ValueError`, modelled as `None`. A canonical `#rrggbb`
  serialiser gives the round trips.
- `Layout` (layout.dfy): the geometry of `criar_imagem_post`. This covers the
  design defaults, the canvas, the photo and its border, the rounded panel and
  the logo. It also covers the title lines and their baselines, and the
  conditions under which the function returns nothing.
- `Publishing` (publishing.dfy): `publicar_redes_sociais` (which channels are
  tried, with what request and caption) and the status decision of
  `webhook_receiver`.
- `Feeds` (feeds.dfy): `processar_feed_rss` and `processar_feed_json`. They
  normalise entries into `{titulo, texto, link}` posts, apply the field
  fallbacks and the JSON list choice, and filter against the posted links.
- `Automation` (automation.dfy): `verificar_configuracao_completa`,
  `salvar_link_postado_db` (a `Ledger` class whose `Save` is an idempotent
  insert) and `iniciar_automacao`. The latter is imperative loops over
  clients, feeds and posts that update the ledger. They are proved equal to a
  functional description of the cycle, `ClientsRun`, about which the ledger
  properties are proved.

Behaviour worth noting:

- The ledger is one global set keyed by link, not by client and link.
- The ledger column is `link TEXT`, and its rows come back as strings. A
  string link, once committed, is never tried again in a later cycle. An
  integer or boolean link from a JSON feed is stored as its text, is never
  recognised when the rows are read back, and so is tried again every cycle.
- Within one cycle the in-memory set identifies `True` with `1` and `False`
  with `0`, as Python's sets do, so committing one of them hides the other.
- A single word wider than the panel stays on its own line, and can produce an
  empty first line. The wrap does not bound every line.
- The first failed try ends the remaining posts of that feed.
- A link is committed after rendering and upload, not after publishing to a
  social channel. The cycle publishes nothing.
- A top-level JSON array gives no posts, because `.get` raises on a list.
- Posts carry no image field, and there is no category banner.
- A font that fails to load falls back to the default font instead of failing
  the render.

## Model

| member | source | states |
|---|---|---|
| Values.Or | auto_post.py:67 | `a or b` is one of its operands, and is truthy exactly when either operand is |
| Values.IntOf | app.py:184 | a value takes part in integer comparison exactly when it is an `int` or a `bool` |
| TextWrap.Split | app.py:120 | every piece of `str.split()` is a non-empty run without whitespace |
| TextWrap.Upper | app.py:199 | upper-casing keeps the length and which characters are whitespace, so the words of the title are kept |
| TextWrap.SplitJoin | app.py:126 | splitting the single-spaced join of words gives the words back |
| TextWrap.StartWrap | app.py:124-132 | the first word opens the first line, after an empty line when it alone is too wide |
| TextWrap.ExtendLast | app.py:125-128 | a word that keeps the line within the width joins the current line, and the greedy-wrap invariant is kept |
| TextWrap.BreakLine | app.py:129-132 | a word that makes the line too wide closes it and opens a new line, and the invariant is kept |
| TextWrap.LastLineNonEmpty | app.py:134-135 | the lines are empty exactly when there are no words, and no line but the first is empty |
| TextWrap.MultiWordLinesOfWrap | app.py:124-132 | every line of two or more words fits the width; a single word may not |
| TextWrap.EmptyOnlyFirstOfWrap | app.py:125-132 | an empty line can only be the first, and it is there exactly when the first word alone is too wide |
| TextWrap.BreaksOfWrap | app.py:127-132 | a non-empty line ends only because the next line's first word would not fit on it |
| TextWrap.PrefixesOfWrap | app.py:125-128 | in every line, each prefix of two or more words fits the width, because each word joined the line only when it still fit |
| TextWrap.WrapLines | app.py:117-137 | the lines of a greedy wrap preserve the words, are single-spaced, and have the width, prefix-fit, empty-first-line and forced-break properties |
| TextWrap.WrapText | app.py:117-137 | `processar_texto` returns lines with all the properties above, prefix fit included; empty input gives no lines |
| TextWrap.TilingUnique | app.py:124-133 | two splittings of the same words into non-empty lines, each filled while the words fit and closed only when the next word does not, are the same |
| TextWrap.GreedyWrapUnique | app.py:124-133 | two greedy wraps of the same words into the same width are the same lines |
| TextWrap.WrapOfLines | app.py:117-137 | lines with the string-level wrap properties are the lines of a greedy wrap of their own words |
| TextWrap.WrapUnique | app.py:117-137 | the properties `processar_texto` is proved to have determine its lines: two results with them are equal, whatever the width function |
| HexColor.DigitValue | app.py:142 | a hex digit has a value below 16 |
| HexColor.ParseHex | app.py:142 | `int(s, 16)` succeeds exactly for a non-empty string of hex digits, with a value below `16^len` |
| HexColor.LStripHash | app.py:141 | `lstrip('#')` removes exactly the leading run of `#` |
| HexColor.Slice | app.py:142 | a slice `[i:j]` is clamped to the end of the string and equals `s[i..j]` when the string is long enough |
| HexColor.SlicesParse | app.py:142 | the three slices all parse exactly when at least five hex digits lead and the sixth, if present, is a hex digit |
| HexColor.TwoDigits | app.py:142 | two hex digits parse to `16*hi + lo` |
| HexColor.SliceDigits | app.py:142 | `int(t[i:i+2], 16)` succeeds exactly when the character at i is a hex digit and so is the one after it, if any; two digits give `16*hi + lo`, a lone last digit its own value |
| HexColor.Component | app.py:142 | a component exists exactly when a hex digit is at i and the next character, if any, is one too; it is then the byte of the two digits, or the value of a lone last digit |
| HexColor.SixDigits | app.py:142 | with six leading hex digits, each slice is the byte of its pair of digits |
| HexColor.HexToRgb | app.py:139-142 | `hex_para_rgb` succeeds exactly when five or six hex digits follow the leading `#`s; with six, it gives `(16*d0+d1, 16*d2+d3, 16*d4+d5)`, with five, `(16*d0+d1, 16*d2+d3, d4)` |
| HexColor.HexToRgbOf | app.py:142 | on a stripped string, the tuple exists exactly when five hex digits lead and a sixth character, if any, is one too, and holds the bytes the digit pairs spell |
| HexColor.DigitsColor | app.py:139-142 | `#` and six hex digits, in either case, give the three bytes they spell |
| HexColor.RgbToHex | app.py:139-142 | the canonical spelling is `#` and six hex digits |
| HexColor.RgbRoundTrip | app.py:139-142 | every colour survives serialising and parsing back |
| HexColor.HexRoundTrip | app.py:139-142 | parsing six hex digits of either case and serialising gives the same digits in lower case |
| HexColor.TrailingIgnored | app.py:142 | characters after the sixth digit do not change the colour |
| HexColor.SixStripped | app.py:141-142 | six hex digits alone read as the colour they spell |
| HexColor.LeadingHashes | app.py:141 | any number of extra leading `#`s changes neither the stripped string nor the colour |
| Layout.DesignOf | app.py:157-167 | each missing design setting takes its default, and a present setting is the configured value |
| Layout.TitleBaselines | app.py:200-203 | the first title line is at y = 800, each next one lower by the previous line's height plus 10, so they strictly increase |
| Layout.StyleOf | app.py:173-207 | the conversions succeed exactly when every colour parses, the width and radius are integers and the footer is text; the border colour is needed only for a positive width |
| Layout.LayOutTitle | app.py:199-203 | the upper-cased title is wrapped into 900 pixels and its lines stacked from y = 800 |
| Layout.CreatePostImage | app.py:144-217 | an image is made exactly when both downloads succeeded, the design converts and the title is text; it has the fixed canvas, photo, border, panel, logo, title and footer |
| Layout.PhotoCentred | app.py:178-181 | the 980x551 photo is pasted at (50, 50), centred horizontally and above the panel |
| Layout.DefaultDesign | app.py:157-167 | with no design settings, every setting takes its listed default |
| Layout.DefaultDesignStyle | app.py:157-162 | the default settings convert to white, a 5-pixel black border, a `#d90429` panel with radius 20 and black text |
| Layout.DefaultStyle | app.py:157-162 | a configuration without design settings gets exactly the default style |
| Layout.HexWhite | app.py:157 | `#FFFFFF` is (255, 255, 255) |
| Layout.HexBlack | app.py:158 | `#000000` is (0, 0, 0) |
| Layout.HexRed | app.py:159 | `#d90429` is (217, 4, 41) |
| Layout.ColorOf | app.py:174 | a configured colour converts exactly when it is a string with five or six hex digits after its leading `#`s; six digits give the bytes their pairs spell |
| Layout.BorderRect | app.py:184-186 | the border box is the photo's size plus b on every side, around the same centre as the photo |
| Layout.BorderEnclosesPhoto | app.py:184-186 | a border of width b > 0 strictly encloses the photo on all four sides |
| Layout.LogoRect | app.py:193-196 | the logo is pasted at its own size, centred across the canvas within one pixel, and centred on the panel's top edge y = 620 within one pixel |
| Layout.LogoPlacement | app.py:193-195 | a logo of at most 220x220 lies inside the canvas and straddles the panel's top edge y = 620 |
| Publishing.Enabled | app.py:224-283 | a channel is tried only when its own integration flag is on; Instagram and Facebook also need the Meta token |
| Publishing.Caption | app.py:263 | the caption is the title, a blank line, the summary, a blank line and the hashtags |
| Publishing.CaptionParts | app.py:263 | with single-line title and summary, the caption determines its three parts |
| Publishing.RequestFor | app.py:224-292 | each channel makes its own kind of request; Instagram and Facebook carry the image URL and the caption |
| Publishing.PublishSocial | app.py:219-294 | a channel has a result exactly when its flag is on and its credentials are truthy, and the result is its request's outcome |
| Publishing.WebhookCaption | app.py:385-389 | without any hashtags in the request or the client's defaults, the caption ends with empty hashtags |
| Publishing.WebhookReceiver | app.py:369-422 | 400 exactly for an unknown client or incomplete post; 500 for exceptions and for failed render, upload or publishing; 200 exactly when a known, complete post is rendered, uploaded and published on an enabled channel |
| Feeds.FilterNew | auto_post.py:64-75 | the filter keeps at most the posts it is given, and every post it keeps is one of them |
| Feeds.RssPost | auto_post.py:65-67 | the RSS text is truthy exactly when `summary` or `description` is non-empty, and the link is a string or `None` |
| Feeds.RssPosts | auto_post.py:64 | one post per RSS entry, in order |
| Feeds.JsonPost | auto_post.py:97-99 | the JSON link falls back from `link` to `url`, the text from `summary` to `description` to `content` |
| Feeds.NewsList | auto_post.py:90-94 | the list is `items` if truthy, else `articles` if truthy, and none when that is not a list or the document is not an object |
| Feeds.JsonPosts | auto_post.py:96-99 | one post per JSON item, in order |
| Feeds.RssFeedPosts | auto_post.py:57-79 | a malformed RSS feed gives no posts, and a feed never gives more posts than it has entries |
| Feeds.JsonFeedPosts | auto_post.py:83-117 | a failed fetch or a document that is not an object gives no posts, and a feed never gives more posts than its list has items |
| Feeds.ProcessRssFeed | auto_post.py:54-79 | `processar_feed_rss` returns nothing for a malformed feed, otherwise the complete new posts in feed order |
| Feeds.ProcessJsonFeed | auto_post.py:81-117 | `processar_feed_json` returns nothing on a failed fetch, a missing list, a non-object item or an unhashable link, otherwise the complete new posts in feed order |
| Feeds.FilterNewMembers | auto_post.py:69-73 | a post is kept exactly when it is in the feed, complete and its link not yet posted |
| Feeds.FilterNewAppend | auto_post.py:64-75 | filtering keeps feed order: filtering two runs is filtering each and joining |
| Feeds.FilterNewAgain | auto_post.py:72 | filtering again against a larger set of posted links is filtering once against it |
| Feeds.RssFeedPostsNew | auto_post.py:54-79 | every post an RSS feed yields is complete and new |
| Feeds.JsonFeedPostsNew | auto_post.py:81-117 | every post a JSON feed yields is complete and new and came from a fetched object |
| Automation.AllSet | auto_post.py:52 | `all(key in config and config[key] ...)` holds exactly when every key is present and truthy |
| Automation.ConfigComplete | auto_post.py:49-52 | a configuration is complete exactly when `nome`, `logo_url`, `font_url_titulo` and `font_url_texto` are present and truthy |
| Automation.Loaded | auto_post.py:38-41 | the links read back from the ledger are exactly its rows, as strings; no other value is ever among them |
| Automation.Ledger.constructor | auto_post.py:28-41 | the ledger starts with the rows already posted |
| Automation.Ledger.Save | auto_post.py:43-47 | saving adds the link's text to the rows, and saving a text already there changes nothing |
| Automation.DbText | auto_post.py:34-46 | a string link is stored as itself, and a link read back from its stored text is recognised exactly when it is a string |
| Automation.AttemptOk | auto_post.py:171-188 | a try fails when the title cannot be sliced for the log line, whatever the render; it succeeds only when rendering and uploading succeed |
| Automation.Found | auto_post.py:157-162 | a feed of another kind, a malformed RSS feed or a failed JSON fetch yields no posts, and every post found is new |
| Automation.ItemsRun | auto_post.py:170-200 | the tries of one feed's posts only add to the set of links, and there is a try exactly when the feed gave posts |
| Automation.FeedsRun | auto_post.py:157-200 | a client's feed loop only adds to the set of links and makes one run per registered feed |
| Automation.ClientsRun | auto_post.py:138-200 | the client loop only adds to the set of links |
| Automation.TryPosts | auto_post.py:170-200 | the item loop makes the tries of the functional item run, and adds to the ledger exactly the texts of the links whose tries succeeded |
| Automation.RunFeed | auto_post.py:157-200 | one feed's fetch and tries are the functional feed step, and add to the ledger exactly the texts of its successful tries |
| Automation.RunFeeds | auto_post.py:149-200 | the feed loop of a client is the functional feed run, and adds to the ledger exactly the texts committed by its runs |
| Automation.RunCycle | auto_post.py:120-207 | `iniciar_automacao` makes the tries of the functional cycle started from the rows read back, and adds to the ledger exactly the texts committed by them |
| Automation.ItemsRunFacts | auto_post.py:170-200 | the posts are tried oldest first; every try but the last succeeded; the loop stops early only at a failure; exactly the links of the successful tries are committed |
| Automation.FeedsRunFacts | auto_post.py:157-200 | the set grows by exactly the committed links; there is one run per feed, in the registered order, each for that feed and reading it against the starting links plus those committed by the earlier runs; every run is fresh, tries its posts oldest first, and records each try as succeeding exactly when rendering and uploading did |
| Automation.ClientsRunFacts | auto_post.py:138-200 | over the cycle, the set grows by exactly the committed links; there is one run per feed of each complete client, client by client and feed by feed, each reading its feed against everything committed before it; every run is fresh, only complete clients have runs, and each try is recorded as succeeding exactly when rendering and uploading for its client did |
| Automation.TriedWasFound | auto_post.py:170 | a tried post is one of the posts its feed yielded |
| Automation.NeverRetried | auto_post.py:160-162 | every post tried in a cycle is complete and its link was not in the set when the cycle started |
| Automation.NoRepost | auto_post.py:193-194 | once a link is committed, no later feed or client of the same cycle tries a post with that link (as the set identifies them) |
| Automation.CommittedTextsHas | auto_post.py:193 | the rows written by one run are among the rows written by the whole cycle |
| Automation.StringLinkNotReposted | auto_post.py:28-47 | a string link committed in one cycle is never tried in the next cycle, which starts from the rows the first left |
| Automation.NonStringLinkAlwaysNew | auto_post.py:38-41 | a complete post whose link is not a string is new at the start of every cycle, so it is tried again each time |
| Automation.DuplicateTriedTwice | auto_post.py:104-105 | a new post listed twice in one feed is kept twice and tried twice |

## Left out

- Network, database and pixel I/O are abstract. This covers image and feed
  downloads, the Cloudinary upload, the WordPress and Graph API calls, the
  database queries, PIL drawing and encoding, and `sleep(2)`. Downloads and
  uploads are given as outcomes, the channel requests as a function `send`,
  and the render-and-upload step of the cycle as `Sources.render`.
- Automation.AttemptOk: the import of `get_db_connection` and
  `gerar_imagem_noticia` from app.py and the use of `io` without importing it
  are not reproduced. Rendering and upload are one abstract step that succeeds
  or fails.
- Automation.RunCycle: a database error that aborts the whole cycle is not
  modelled. The feeds and the render outcome are fixed per address and post
  within one cycle.
- Automation.Ledger.Save: requires a truthy, hashable link. Only such links
  reach it, because every post tried passed the completeness test and the set
  lookup.
- Automation.ConfigOf: a `config` column holding something other than an
  object is not modelled.
- HexColor.HexToRgb: slices that Python's `int(..., 16)` accepts but that are
  not plain hex digits are treated as errors. These are a sign, surrounding
  whitespace, an underscore, or non-ASCII digits.
- TextWrap.Upper: only ASCII letters and the Latin-1 letters whose upper case
  is also a single Latin-1 character are upper-cased. `ß` (whose upper case
  is two characters), `ÿ` (U+00FF, whose upper case is outside Latin-1), `µ`
  (U+00B5, whose upper case is Greek) and other scripts are left as they are.
- Values.Json: JSON floating-point numbers are not modelled. A float border
  width or radius is therefore not a case of the model.
- Values.Str: `str()` of a list or a dict is not modelled. It gives the empty
  string, and only the caption uses it.
- Layout.CreatePostImage: the font names and sizes are recorded, not loaded.
  The fallback to the default font always succeeds. The logo is given by its
  size after `thumbnail`, so thumbnail scaling is not modelled. Saving the
  JPEG is assumed to succeed.
- Publishing.PublishSocial: the WordPress Basic authentication header
  (base64), the timestamped file name and the error messages of the results
  are not modelled. A channel's result is whether its request went through.
- Publishing.WebhookReceiver: a body that Flask cannot read as JSON is a
  value that is not an object, giving 500. The image upload and its file name
  are given as the outcome `uploaded`.
- The dashboard routes, login and session handling, `init_db` and the JSON
  configuration file store are not part of this model.
