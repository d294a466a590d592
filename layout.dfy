/**
 * The geometry of `criar_imagem_post`: the design defaults, the fixed
 * 1080x1080 canvas, the photo and its border, the rounded highlight panel,
 * the logo straddling the panel's top edge, and the title lines stacked from
 * y = 800. Downloads, pixels, fonts and encoding are left to the imaging
 * library: the photo and the logo are given as "downloaded or not" (the logo
 * with its size after thumbnailing), and the title font by its glyph measures.
 */
module Layout {

  import opened Wrappers
  import opened Values
  import opened HexColor
  import TextWrap

  const IMG_WIDTH := 1080
  const IMG_HEIGHT := 1080
  const PHOTO_W := 980
  const PHOTO_H := 551
  const PHOTO_Y := 50
  const PANEL_TOP := 620
  const LOGO_BOX := 220
  const TITLE_MAX_WIDTH := 900
  const TITLE_Y := 800
  const LINE_GAP := 10
  const FOOTER_Y := 980

  /** The default colours: `#FFFFFF`, `#000000` and `#d90429`. */
  const WHITE: Rgb := Rgb(255, 255, 255)
  const BLACK: Rgb := Rgb(0, 0, 0)
  const RED: Rgb := Rgb(0xd9, 0x04, 0x29)

  /** A pasted image: its top-left corner and its size. */
  datatype Rect = Rect(x: int, y: int, w: int, h: int)

  /** A box given by two corners, as the imaging library's shape calls take it. */
  datatype Box = Box(x0: int, y0: int, x1: int, y1: int)

  /** The size of the logo after `thumbnail((220, 220))`. */
  datatype Size = Size(w: nat, h: nat)

  /**
   * Where the thumbnailed logo is pasted (`x = (1080 - w) // 2`,
   * `y = 620 - h // 2`): centred, within a pixel, across the canvas and on the
   * top edge of the panel.
   */
  function LogoRect(size: Size): (r: Rect)
    ensures r.w == size.w && r.h == size.h
    ensures IMG_WIDTH - 1 <= 2 * r.x + r.w <= IMG_WIDTH
    ensures 2 * PANEL_TOP - 1 <= 2 * r.y + r.h <= 2 * PANEL_TOP + 1
  {
    Rect((IMG_WIDTH - size.w) / 2, PANEL_TOP - size.h / 2, size.w, size.h)
  }

  /** The client's design settings, each read with `config.get(key, default)`. */
  datatype Design = Design(
    corFundo: Json, corTexto: Json, corDestaque: Json, corBorda: Json,
    espessuraBorda: Json, arredondamentoBorda: Json,
    fonteTitulo: Json, tamanhoFonteTitulo: Json, fonteRodape: Json, tamanhoFonteRodape: Json,
    textoRodape: Json)

  /** The design settings of `config`, a missing key taking its default. */
  function DesignOf(config: Dict): (d: Design)
    ensures "cor_fundo" !in config ==> d.corFundo == JString("#FFFFFF")
    ensures "cor_texto" !in config ==> d.corTexto == JString("#000000")
    ensures "cor_destaque" !in config ==> d.corDestaque == JString("#d90429")
    ensures "cor_borda" !in config ==> d.corBorda == JString("#000000")
    ensures "espessura_borda" !in config ==> d.espessuraBorda == JInt(5)
    ensures "arredondamento_borda" !in config ==> d.arredondamentoBorda == JInt(20)
    ensures "fonte_titulo" !in config ==> d.fonteTitulo == JString("Arial")
    ensures "tamanho_fonte_titulo" !in config ==> d.tamanhoFonteTitulo == JInt(50)
    ensures "fonte_rodape" !in config ==> d.fonteRodape == JString("Arial")
    ensures "tamanho_fonte_rodape" !in config ==> d.tamanhoFonteRodape == JInt(30)
    ensures "texto_rodape" !in config ==> d.textoRodape == JString("@SUAEMPRESA")
    ensures "cor_fundo" in config ==> d.corFundo == config["cor_fundo"]
    ensures "cor_texto" in config ==> d.corTexto == config["cor_texto"]
    ensures "cor_destaque" in config ==> d.corDestaque == config["cor_destaque"]
    ensures "cor_borda" in config ==> d.corBorda == config["cor_borda"]
    ensures "espessura_borda" in config ==> d.espessuraBorda == config["espessura_borda"]
    ensures "arredondamento_borda" in config ==> d.arredondamentoBorda == config["arredondamento_borda"]
    ensures "fonte_titulo" in config ==> d.fonteTitulo == config["fonte_titulo"]
    ensures "tamanho_fonte_titulo" in config ==> d.tamanhoFonteTitulo == config["tamanho_fonte_titulo"]
    ensures "fonte_rodape" in config ==> d.fonteRodape == config["fonte_rodape"]
    ensures "tamanho_fonte_rodape" in config ==> d.tamanhoFonteRodape == config["tamanho_fonte_rodape"]
    ensures "texto_rodape" in config ==> d.textoRodape == config["texto_rodape"]
  {
    Design(
      Get(config, "cor_fundo", JString("#FFFFFF")),
      Get(config, "cor_texto", JString("#000000")),
      Get(config, "cor_destaque", JString("#d90429")),
      Get(config, "cor_borda", JString("#000000")),
      Get(config, "espessura_borda", JInt(5)),
      Get(config, "arredondamento_borda", JInt(20)),
      Get(config, "fonte_titulo", JString("Arial")),
      Get(config, "tamanho_fonte_titulo", JInt(50)),
      Get(config, "fonte_rodape", JString("Arial")),
      Get(config, "tamanho_fonte_rodape", JInt(30)),
      Get(config, "texto_rodape", JString("@SUAEMPRESA")))
  }

  /** `hex_para_rgb` of a configured value: `None` when it raises (not a string, or not hex). */
  function ColorOf(v: Json): (c: Option<Rgb>)
    ensures c.Some? <==> v.JString? && |LStripHash(v.s)| >= 5 && LeadingHex(LStripHash(v.s), 6)
    ensures v.JString? && |LStripHash(v.s)| >= 6 && LeadingHex(LStripHash(v.s), 6) ==>
      var t := LStripHash(v.s);
      c == Some(Rgb(PairValue(t[0], t[1]), PairValue(t[2], t[3]), PairValue(t[4], t[5])))
  {
    if v.JString? then HexToRgb(v.s) else None
  }

  /** What `criar_imagem_post` draws, in order, on its canvas. */
  datatype Composition = Composition(
    canvas: Rect,
    background: Rgb,
    photo: Rect,
    border: Option<Rect>,
    borderColor: Option<Rgb>,
    panel: Box,
    panelRadius: int,
    panelColor: Rgb,
    logo: Rect,
    titleFont: (Json, Json),
    titleX: int,
    titleLines: seq<string>,
    titleYs: seq<int>,
    textColor: Rgb,
    footerFont: (Json, Json),
    footer: string,
    footerAt: (int, int))

  /**
   * The loop that stacks the title lines: the first is drawn at y = 800, each
   * next one lower by the previous line's height plus a gap of 10.
   */
  method TitleBaselines(linhas: seq<string>, height: string -> nat) returns (ys: seq<int>)
    ensures |ys| == |linhas|
    ensures |ys| > 0 ==> ys[0] == TITLE_Y
    ensures forall k :: 0 <= k < |ys| - 1 ==> ys[k + 1] == ys[k] + height(linhas[k]) + LINE_GAP
    ensures forall i, j :: 0 <= i < j < |ys| ==> ys[i] < ys[j]
  {
    ys := [];
    var y_texto := TITLE_Y;
    var i := 0;
    while i < |linhas|
      invariant 0 <= i <= |linhas|
      invariant |ys| == i
      invariant i > 0 ==> ys[0] == TITLE_Y && y_texto == ys[i - 1] + height(linhas[i - 1]) + LINE_GAP
      invariant i == 0 ==> y_texto == TITLE_Y
      invariant forall k :: 0 <= k < i - 1 ==> ys[k + 1] == ys[k] + height(linhas[k]) + LINE_GAP
      invariant forall k :: 0 <= k < i ==> ys[k] < y_texto
      invariant forall i', j :: 0 <= i' < j < i ==> ys[i'] < ys[j]
    {
      ys := ys + [y_texto];
      y_texto := y_texto + height(linhas[i]) + LINE_GAP;
      i := i + 1;
    }
  }

  /** Where the photo is pasted: horizontally centred, `(1080 - 980) // 2` from the left edge. */
  function PhotoRect(): Rect {
    Rect((IMG_WIDTH - PHOTO_W) / 2, PHOTO_Y, PHOTO_W, PHOTO_H)
  }

  /**
   * Where the bordered copy is pasted over the photo: the photo with a
   * `b`-pixel frame, `b` wider on every side around the same centre.
   */
  function BorderRect(b: int): (r: Rect)
    ensures r.w == PhotoRect().w + 2 * b && r.h == PhotoRect().h + 2 * b
    ensures 2 * r.x + r.w == 2 * PhotoRect().x + PhotoRect().w
    ensures 2 * r.y + r.h == 2 * PhotoRect().y + PhotoRect().h
  {
    Rect(PhotoRect().x - b, PhotoRect().y - b, PHOTO_W + 2 * b, PHOTO_H + 2 * b)
  }

  /** The design settings once every conversion `criar_imagem_post` makes has succeeded. */
  datatype Style = Style(
    background: Rgb, borderWidth: int, borderColor: Option<Rgb>, radius: int,
    highlight: Rgb, text: Rgb, footer: string)

  /**
   * The conversions of the design settings: the colours through
   * `hex_para_rgb`, the border width and radius through `int`, the footer as
   * text. `None` when any of them raises; the border colour is converted only
   * for a positive border width.
   */
  function StyleOf(d: Design): (st: Option<Style>)
    ensures st.Some? <==>
      && ColorOf(d.corFundo).Some?
      && IntOf(d.espessuraBorda).Some?
      && (IntOf(d.espessuraBorda).value > 0 ==> ColorOf(d.corBorda).Some?)
      && IntOf(d.arredondamentoBorda).Some?
      && ColorOf(d.corDestaque).Some?
      && ColorOf(d.corTexto).Some?
      && d.textoRodape.JString?
    ensures st.Some? ==>
      && Some(st.value.background) == ColorOf(d.corFundo)
      && Some(st.value.borderWidth) == IntOf(d.espessuraBorda)
      && (st.value.borderWidth > 0 ==> st.value.borderColor == ColorOf(d.corBorda))
      && (st.value.borderWidth <= 0 ==> st.value.borderColor.None?)
      && Some(st.value.radius) == IntOf(d.arredondamentoBorda)
      && Some(st.value.highlight) == ColorOf(d.corDestaque)
      && Some(st.value.text) == ColorOf(d.corTexto)
      && JString(st.value.footer) == d.textoRodape
  {
    var fundo := ColorOf(d.corFundo);
    var espessura := IntOf(d.espessuraBorda);
    var borda := if espessura.Some? && espessura.value > 0 then ColorOf(d.corBorda) else None;
    var raio := IntOf(d.arredondamentoBorda);
    var destaque := ColorOf(d.corDestaque);
    var texto := ColorOf(d.corTexto);
    if fundo.None? || espessura.None? || (espessura.value > 0 && borda.None?) || raio.None?
       || destaque.None? || texto.None? || !d.textoRodape.JString?
    then None
    else Some(Style(fundo.value, espessura.value, borda, raio.value, destaque.value, texto.value, d.textoRodape.s))
  }

  /** Everything `criar_imagem_post` needs to get through without an exception. */
  predicate Renderable(config: Dict, photoLoaded: bool, logo: Option<Size>, titulo: Json) {
    photoLoaded && logo.Some? && StyleOf(DesignOf(config)).Some? && titulo.JString?
  }

  /** The composition `c` is what `criar_imagem_post` draws in style `st`. */
  predicate Composed(c: Composition, d: Design, st: Style, size: Size, titulo: string,
                     width: string -> nat, height: string -> nat)
  {
    && c.canvas == Rect(0, 0, IMG_WIDTH, IMG_HEIGHT)
    && c.background == st.background
    && c.photo == PhotoRect()
    && (st.borderWidth > 0 ==> c.border == Some(BorderRect(st.borderWidth)))
    && (st.borderWidth <= 0 ==> c.border.None?)
    && c.borderColor == st.borderColor
    && c.panel == Box(50, PANEL_TOP, IMG_WIDTH - 50, IMG_HEIGHT - 50)
    && c.panelRadius == st.radius
    && c.panelColor == st.highlight
    && c.logo == LogoRect(size)
    && c.titleFont == (d.fonteTitulo, d.tamanhoFonteTitulo)
    && c.titleX == IMG_WIDTH / 2
    && TitleLaidOut(c.titleLines, c.titleYs, titulo, width, height)
    && c.textColor == st.text
    && c.footerFont == (d.fonteRodape, d.tamanhoFonteRodape)
    && c.footer == st.footer
    && c.footerAt == (IMG_WIDTH / 2, FOOTER_Y)
  }

  /** The title, upper-cased, is wrapped into 900 pixels and its lines stacked from y = 800. */
  predicate TitleLaidOut(lines: seq<string>, ys: seq<int>, titulo: string, width: string -> nat, height: string -> nat) {
    && TextWrap.IsWrap(TextWrap.Upper(titulo), TITLE_MAX_WIDTH, width, lines)
    && |ys| == |lines|
    && (|ys| > 0 ==> ys[0] == TITLE_Y)
    && (forall k :: 0 <= k < |ys| - 1 ==> ys[k + 1] == ys[k] + height(lines[k]) + LINE_GAP)
  }

  /** The title lines of `criar_imagem_post` and the loop that places them. */
  method LayOutTitle(titulo: string, width: string -> nat, height: string -> nat)
    returns (linhas: seq<string>, ys: seq<int>)
    ensures TitleLaidOut(linhas, ys, titulo, width, height)
  {
    linhas := TextWrap.WrapText(TextWrap.Upper(titulo), TITLE_MAX_WIDTH, width);
    ys := TitleBaselines(linhas, height);
  }

  /**
   * `criar_imagem_post`: `None` when a download failed or any step raised;
   * otherwise the composition, whose geometry is fixed by the constants above.
   * `width` and `height` measure a line in the title font.
   */
  method CreatePostImage(config: Dict, photoLoaded: bool, logo: Option<Size>, titulo: Json,
                         width: string -> nat, height: string -> nat)
    returns (r: Option<Composition>)
    requires logo.Some? ==> logo.value.w <= LOGO_BOX && logo.value.h <= LOGO_BOX
    ensures r.Some? <==> Renderable(config, photoLoaded, logo, titulo)
    ensures r.Some? ==>
      Composed(r.value, DesignOf(config), StyleOf(DesignOf(config)).value, logo.value, titulo.s, width, height)
  {
    if !photoLoaded || logo.None? {
      return None;
    }
    var d := DesignOf(config);
    var style := StyleOf(d);
    if style.None? || !titulo.JString? {
      return None;
    }
    var st := style.value;
    var canvas := Rect(0, 0, IMG_WIDTH, IMG_HEIGHT);
    var photo := PhotoRect();
    var border: Option<Rect> := None;
    if st.borderWidth > 0 {
      border := Some(BorderRect(st.borderWidth));
    }
    var panel := Box(50, PANEL_TOP, IMG_WIDTH - 50, IMG_HEIGHT - 50);
    var logoRect := LogoRect(logo.value);
    var linhas, ys := LayOutTitle(titulo.s, width, height);
    r := Some(Composition(canvas, st.background, photo, border, st.borderColor, panel, st.radius, st.highlight,
                          logoRect, (d.fonteTitulo, d.tamanhoFonteTitulo), IMG_WIDTH / 2, linhas, ys, st.text,
                          (d.fonteRodape, d.tamanhoFonteRodape), st.footer, (IMG_WIDTH / 2, FOOTER_Y)));
  }

  /** The photo is centred horizontally, 50 pixels in from each side. */
  lemma PhotoCentred()
    ensures PhotoRect().x == 50
    ensures 2 * PhotoRect().x + PhotoRect().w == IMG_WIDTH
    ensures 0 < PhotoRect().y && PhotoRect().y + PhotoRect().h < PANEL_TOP
  {
  }

  /** None of the design settings is configured. */
  predicate NoDesignSettings(config: Dict) {
    && "cor_fundo" !in config && "cor_texto" !in config && "cor_destaque" !in config && "cor_borda" !in config
    && "espessura_borda" !in config && "arredondamento_borda" !in config
    && "fonte_titulo" !in config && "tamanho_fonte_titulo" !in config
    && "fonte_rodape" !in config && "tamanho_fonte_rodape" !in config && "texto_rodape" !in config
  }

  /** The design of a configuration without any design setting. */
  const DEFAULT_DESIGN: Design := Design(
    JString("#FFFFFF"), JString("#000000"), JString("#d90429"), JString("#000000"),
    JInt(5), JInt(20), JString("Arial"), JInt(50), JString("Arial"), JInt(30), JString("@SUAEMPRESA"))

  /** White background, 5-pixel black border, red panel with radius 20, black text, footer `@SUAEMPRESA`. */
  const DEFAULT_STYLE: Style := Style(WHITE, 5, Some(BLACK), 20, RED, BLACK, "@SUAEMPRESA")

  /** Without any design setting, every setting takes its default. */
  lemma DefaultDesign(config: Dict)
    requires NoDesignSettings(config)
    ensures DesignOf(config) == DEFAULT_DESIGN
  {
  }

  /** The default design converts to the default style. */
  lemma DefaultDesignStyle()
    ensures StyleOf(DEFAULT_DESIGN) == Some(DEFAULT_STYLE)
  {
    DefaultConverts();
    StyleOfParts(DEFAULT_DESIGN, DEFAULT_STYLE);
  }

  /** Each default setting converts to the corresponding part of the default style. */
  lemma DefaultConverts()
    ensures Converts(DEFAULT_DESIGN, DEFAULT_STYLE)
  {
    DefaultBackground();
    DefaultBorder();
    DefaultHighlight();
    DefaultText();
    DefaultNumbers();
  }

  /** A 5-pixel border, radius 20, footer `@SUAEMPRESA`. */
  lemma DefaultNumbers()
    ensures NumbersConvert(DEFAULT_DESIGN, DEFAULT_STYLE)
  {
  }

  /** `#FFFFFF` is white. */
  lemma DefaultBackground()
    ensures BackgroundConverts(DEFAULT_DESIGN, DEFAULT_STYLE)
  {
    HexWhite();
  }

  /** `#000000` is black, and the border is drawn. */
  lemma DefaultBorder()
    ensures BorderConverts(DEFAULT_DESIGN, DEFAULT_STYLE)
  {
    HexBlack();
  }

  /** `#d90429` is the panel red. */
  lemma DefaultHighlight()
    ensures HighlightConverts(DEFAULT_DESIGN, DEFAULT_STYLE)
  {
    HexRed();
  }

  /** `#000000` is black. */
  lemma DefaultText()
    ensures TextConverts(DEFAULT_DESIGN, DEFAULT_STYLE)
  {
    HexBlack();
  }

  /**
   * A client with no design settings at all gets a white background, a
   * 5-pixel black border, a red (#d90429) panel with radius 20, black text and
   * the footer "@SUAEMPRESA".
   */
  lemma DefaultStyle(config: Dict)
    requires NoDesignSettings(config)
    ensures StyleOf(DesignOf(config)) == Some(DEFAULT_STYLE)
  {
    DefaultDesign(config);
    DefaultDesignStyle();
  }

  predicate BackgroundConverts(d: Design, st: Style) {
    ColorOf(d.corFundo) == Some(st.background)
  }

  /** The border colour is read for a positive border width only. */
  predicate BorderConverts(d: Design, st: Style) {
    && (st.borderWidth > 0 ==> ColorOf(d.corBorda).Some? && st.borderColor == ColorOf(d.corBorda))
    && (st.borderWidth <= 0 ==> st.borderColor.None?)
  }

  /** The border width, the radius and the footer. */
  predicate NumbersConvert(d: Design, st: Style) {
    && IntOf(d.espessuraBorda) == Some(st.borderWidth)
    && IntOf(d.arredondamentoBorda) == Some(st.radius)
    && d.textoRodape == JString(st.footer)
  }

  predicate HighlightConverts(d: Design, st: Style) {
    ColorOf(d.corDestaque) == Some(st.highlight)
  }

  predicate TextConverts(d: Design, st: Style) {
    ColorOf(d.corTexto) == Some(st.text)
  }

  /** Every conversion of `d` succeeds and gives the corresponding part of `st`. */
  predicate Converts(d: Design, st: Style) {
    && BackgroundConverts(d, st)
    && BorderConverts(d, st)
    && HighlightConverts(d, st)
    && TextConverts(d, st)
    && NumbersConvert(d, st)
  }

  /** The style of a design is the one its conversions give. */
  lemma StyleOfParts(d: Design, st: Style)
    requires Converts(d, st)
    ensures StyleOf(d) == Some(st)
  {
  }

  lemma HexWhite()
    ensures HexToRgb("#FFFFFF") == Some(WHITE)
  {
    SpelledColor('F', 'F', 'F', 'F', 'F', 'F');
    assert PairValue('F', 'F') == 255;
    assert ['#', 'F', 'F', 'F', 'F', 'F', 'F'] == "#FFFFFF";
  }

  /** Black `#000000` spells (0, 0, 0). */
  lemma HexBlack()
    ensures HexToRgb("#000000") == Some(BLACK)
  {
    SpelledColor('0', '0', '0', '0', '0', '0');
    assert PairValue('0', '0') == 0;
    assert ['#', '0', '0', '0', '0', '0', '0'] == "#000000";
  }

  /** The panel red `#d90429` spells (217, 4, 41). */
  lemma HexRed()
    ensures HexToRgb("#d90429") == Some(RED)
  {
    SpelledColor('d', '9', '0', '4', '2', '9');
    assert PairValue('d', '9') == 217 && PairValue('0', '4') == 4 && PairValue('2', '9') == 41;
    assert ['#', 'd', '9', '0', '4', '2', '9'] == "#d90429";
  }

  /** For a positive width, the border box strictly encloses the photo. */
  lemma BorderEnclosesPhoto(b: int)
    requires b > 0
    ensures var photo := PhotoRect(); var border := BorderRect(b);
      && border.x < photo.x && photo.x + photo.w < border.x + border.w
      && border.y < photo.y && photo.y + photo.h < border.y + border.h
  {
  }

  /** The logo (at most 220x220) lies inside the canvas and straddles the top edge y = 620 of the panel. */
  lemma LogoPlacement(size: Size)
    requires size.w <= LOGO_BOX && size.h <= LOGO_BOX
    ensures var x := LogoRect(size).x; var y := LogoRect(size).y;
      && 0 <= x && x + size.w <= IMG_WIDTH
      && y <= PANEL_TOP <= y + size.h
  {
  }
}
