/**
 * Publishing a rendered post (`publicar_redes_sociais`) and the webhook that
 * drives one post through rendering, upload and publishing
 * (`webhook_receiver`). The HTTP calls to WordPress and the Graph API are
 * given as `send`, which tells for each request whether it went through;
 * the image upload is given as its outcome.
 */
module Publishing {

  import opened Wrappers
  import opened Values
  import Layout

  /** The three channels, named by their keys in the `resultados` dict. */
  datatype Channel = WordPress | Instagram | Facebook

  /** What a channel is asked to do: the credentials and identifiers it reads, the image and the caption. */
  datatype Request =
    | WpUpload(wpUrl: Json, wpUser: Json, wpPassword: Json, imageUrl: string)
    | InstagramPost(token: Json, instagramId: Json, imageUrl: string, caption: string)
    | FacebookPost(token: Json, pageId: Json, imageUrl: string, caption: string)

  /** A configuration flag, read with `config.get(key, False)`. */
  predicate Flag(config: Dict, key: string) {
    Truthy(Get(config, key, JBool(false)))
  }

  /** A credential, read with `config.get(key)` and tested inside `all([...])`. */
  predicate Has(config: Dict, key: string) {
    Truthy(Get(config, key, JNull))
  }

  /**
   * The channel's integration flag is on and all of its credentials are set;
   * Instagram and Facebook share the Meta token.
   */
  predicate Enabled(config: Dict, ch: Channel): (r: bool)
    ensures r && !ch.WordPress? ==> Has(config, "meta_token")
    ensures r ==> Flag(config, if ch.WordPress? then "wp_integracao"
                               else if ch.Instagram? then "instagram_integracao"
                               else "facebook_integracao")
  {
    match ch
    case WordPress => Flag(config, "wp_integracao") && Has(config, "wp_url") && Has(config, "wp_user") && Has(config, "wp_password")
    case Instagram => Flag(config, "instagram_integracao") && Has(config, "meta_token") && Has(config, "instagram_id")
    case Facebook => Flag(config, "facebook_integracao") && Has(config, "meta_token") && Has(config, "facebook_page_id")
  }

  /** The caption posted to Instagram and Facebook: title, summary and hashtags separated by blank lines. */
  function Caption(titulo: string, resumo: string, hashtags: string): (legenda: string)
    ensures |legenda| == |titulo| + |resumo| + |hashtags| + 4
    ensures legenda[..|titulo|] == titulo && legenda[|legenda| - |hashtags|..] == hashtags
  {
    titulo + "\n\n" + resumo + "\n\n" + hashtags
  }

  /** The request a channel makes for the image at `url_imagem`. */
  function RequestFor(config: Dict, ch: Channel, url_imagem: string, legenda: string): (req: Request)
    ensures ch == WordPress <==> req.WpUpload?
    ensures ch == Instagram <==> req.InstagramPost?
    ensures !req.WpUpload? ==> req.imageUrl == url_imagem && req.caption == legenda
  {
    match ch
    case WordPress => WpUpload(Get(config, "wp_url", JNull), Get(config, "wp_user", JNull), Get(config, "wp_password", JNull), url_imagem)
    case Instagram => InstagramPost(Get(config, "meta_token", JNull), Get(config, "instagram_id", JNull), url_imagem, legenda)
    case Facebook => FacebookPost(Get(config, "meta_token", JNull), Get(config, "facebook_page_id", JNull), url_imagem, legenda)
  }

  /**
   * `publicar_redes_sociais`: one entry per enabled channel, in the order
   * WordPress, Instagram, Facebook, recording whether its request succeeded.
   * `titulo`, `resumo` and `hashtags` enter the caption through `str()`.
   */
  method PublishSocial(config: Dict, url_imagem: string, titulo: Json, resumo: Json, hashtags: Json,
                       send: Request -> bool)
    returns (resultados: map<Channel, bool>)
    ensures forall ch :: ch in resultados <==> Enabled(config, ch)
    ensures forall ch :: ch in resultados ==>
      resultados[ch] == send(RequestFor(config, ch, url_imagem, Caption(Str(titulo), Str(resumo), Str(hashtags))))
  {
    resultados := map[];
    if Flag(config, "wp_integracao") {
      var wp_url, wp_user, wp_password := Get(config, "wp_url", JNull), Get(config, "wp_user", JNull), Get(config, "wp_password", JNull);
      if Truthy(wp_url) && Truthy(wp_user) && Truthy(wp_password) {
        resultados := resultados[WordPress := send(WpUpload(wp_url, wp_user, wp_password, url_imagem))];
      }
    }
    if Flag(config, "instagram_integracao") {
      var meta_token, instagram_id := Get(config, "meta_token", JNull), Get(config, "instagram_id", JNull);
      if Truthy(meta_token) && Truthy(instagram_id) {
        var legenda := Caption(Str(titulo), Str(resumo), Str(hashtags));
        resultados := resultados[Instagram := send(InstagramPost(meta_token, instagram_id, url_imagem, legenda))];
      }
    }
    if Flag(config, "facebook_integracao") {
      var meta_token, facebook_page_id := Get(config, "meta_token", JNull), Get(config, "facebook_page_id", JNull);
      if Truthy(meta_token) && Truthy(facebook_page_id) {
        var legenda := Caption(Str(titulo), Str(resumo), Str(hashtags));
        resultados := resultados[Facebook := send(FacebookPost(meta_token, facebook_page_id, url_imagem, legenda))];
      }
    }
  }

  /** The characters of `s` include no line break. */
  predicate SingleLine(s: string) {
    forall i :: 0 <= i < |s| ==> s[i] != '\n'
  }

  /** A line ended by a line break is determined by the text it starts. */
  lemma FirstLine(t: string, x: string, t': string, x': string)
    requires SingleLine(t) && SingleLine(t')
    requires x != [] && x[0] == '\n' && x' != [] && x'[0] == '\n' && t + x == t' + x'
    ensures t == t'
  {
    var c := t + x;
    assert c[|t|] == '\n' && c[|t'|] == '\n';
    assert t == c[..|t|] && t' == c[..|t'|];
  }

  /**
   * A caption splits back into its parts when the title and the summary are
   * single lines (the hashtags may span several).
   */
  lemma CaptionParts(t: string, r: string, h: string, t': string, r': string, h': string)
    requires SingleLine(t) && SingleLine(r) && SingleLine(t') && SingleLine(r')
    requires Caption(t, r, h) == Caption(t', r', h')
    ensures t == t' && r == r' && h == h'
  {
    var c := Caption(t, r, h);
    assert c == t + ("\n\n" + r + "\n\n" + h);
    assert c == t' + ("\n\n" + r' + "\n\n" + h');
    FirstLine(t, "\n\n" + r + "\n\n" + h, t', "\n\n" + r' + "\n\n" + h');
    var rest := c[|t| + 2..];
    assert rest == r + ("\n\n" + h);
    assert rest == r' + ("\n\n" + h');
    FirstLine(r, "\n\n" + h, r', "\n\n" + h');
    assert h == rest[|r| + 2..] == h';
  }

  /** `dados.get('cliente_id')` of a request body that is an object. */
  function ClientId(dados: Json): (id: Json)
    requires dados.JObject?
    ensures "cliente_id" !in dados.fields ==> id == JNull
  {
    Get(dados.fields, "cliente_id", JNull)
  }

  /**
   * The webhook fails with an exception: the body is not an object (so it has
   * no `.get`), or the client id is a truthy list or object, which cannot be
   * looked up in the dict of configurations.
   */
  predicate Crashes(dados: Json) {
    !dados.JObject? || (Truthy(ClientId(dados)) && !Hashable(ClientId(dados)))
  }

  /** The client id is truthy and names a configured client. */
  predicate KnownClient(configs: map<string, Dict>, dados: Json) {
    && dados.JObject?
    && Truthy(ClientId(dados))
    && ClientId(dados).JString?
    && ClientId(dados).s in configs
  }

  /** `post_id`, `titulo` and `imagem_destaque` are all truthy. */
  predicate PostComplete(dados: Json)
    requires dados.JObject?
  {
    && Truthy(Get(dados.fields, "post_id", JNull))
    && Truthy(Get(dados.fields, "titulo", JString("")))
    && Truthy(Get(dados.fields, "imagem_destaque", JString("")))
  }

  /** The configuration of the client a known request names. */
  function ConfigOf(configs: map<string, Dict>, dados: Json): Dict
    requires KnownClient(configs, dados)
  {
    configs[ClientId(dados).s]
  }

  /** The caption the webhook's post gets: its title and summary and its hashtags, or the client's default ones. */
  function WebhookCaption(config: Dict, dados: Json): (legenda: string)
    requires dados.JObject?
    ensures "hashtags" !in dados.fields && "hashtags_padrao" !in config ==>
      legenda == Caption(Str(Get(dados.fields, "titulo", JString(""))), Str(Get(dados.fields, "resumo", JString(""))), "")
  {
    var hashtags := Get(dados.fields, "hashtags", Get(config, "hashtags_padrao", JString("")));
    Caption(Str(Get(dados.fields, "titulo", JString(""))), Str(Get(dados.fields, "resumo", JString(""))), Str(hashtags))
  }

  /**
   * `webhook_receiver`: the HTTP status it answers with, and the publishing
   * results it reports. `photoLoaded` and `logo` are the outcomes of
   * downloading the post's image and the client's logo, `uploaded` the URL
   * the rendered image got (or `None` when the upload failed), `send` the
   * outcome of each channel's request. 400 is a bad request (unknown client or
   * missing post fields), 500 an exception, a failed render or upload, or no
   * channel that succeeded, and 200 a post published on at least one channel.
   */
  method WebhookReceiver(configs: map<string, Dict>, dados: Json,
                         photoLoaded: bool, logo: Option<Layout.Size>,
                         width: string -> nat, height: string -> nat,
                         uploaded: Option<string>, send: Request -> bool)
    returns (status: int, resultados: map<Channel, bool>)
    requires logo.Some? ==> logo.value.w <= Layout.LOGO_BOX && logo.value.h <= Layout.LOGO_BOX
    ensures status == 200 || status == 400 || status == 500
    ensures Crashes(dados) ==> status == 500
    ensures status == 400 <==> !Crashes(dados) && (!KnownClient(configs, dados) || !PostComplete(dados))
    ensures status == 200 <==>
      && KnownClient(configs, dados) && PostComplete(dados)
      && Layout.Renderable(ConfigOf(configs, dados), photoLoaded, logo, Get(dados.fields, "titulo", JString("")))
      && uploaded.Some?
      && exists ch :: Enabled(ConfigOf(configs, dados), ch)
                   && send(RequestFor(ConfigOf(configs, dados), ch, uploaded.value, WebhookCaption(ConfigOf(configs, dados), dados)))
    ensures status == 200 ==> exists ch :: ch in resultados && resultados[ch]
    ensures resultados != map[] ==>
      && KnownClient(configs, dados) && PostComplete(dados)
      && forall ch :: ch in resultados ==> Enabled(ConfigOf(configs, dados), ch)
  {
    resultados := map[];
    if !dados.JObject? {
      return 500, resultados;
    }
    var cliente_id := Get(dados.fields, "cliente_id", JNull);
    if !Truthy(cliente_id) {
      return 400, resultados;
    }
    if !Hashable(cliente_id) {
      return 500, resultados;
    }
    if !(cliente_id.JString? && cliente_id.s in configs) {
      return 400, resultados;
    }
    var config := configs[cliente_id.s];

    var post_id := Get(dados.fields, "post_id", JNull);
    var titulo_noticia := Get(dados.fields, "titulo", JString(""));
    var resumo_noticia := Get(dados.fields, "resumo", JString(""));
    var url_imagem_destaque := Get(dados.fields, "imagem_destaque", JString(""));
    var hashtags := Get(dados.fields, "hashtags", Get(config, "hashtags_padrao", JString("")));
    if !(Truthy(post_id) && Truthy(titulo_noticia) && Truthy(url_imagem_destaque)) {
      return 400, resultados;
    }

    var imagem := Layout.CreatePostImage(config, photoLoaded, logo, titulo_noticia, width, height);
    if imagem.None? {
      return 500, resultados;
    }
    if uploaded.None? {
      return 500, resultados;
    }

    resultados := PublishSocial(config, uploaded.value, titulo_noticia, resumo_noticia, hashtags, send);
    if exists ch :: ch in resultados && resultados[ch] {
      status := 200;
    } else {
      status := 500;
    }
  }
}
