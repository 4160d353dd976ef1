/**
 * The e-mail formatting of internal/notification/email.go: the subject rule of
 * `EmailNotifier.Send`, the small Markdown converter `markdownToHTML`, the HTML
 * escaping of the subject and the assembly of the message in `buildEmailMessage`.
 * The SMTP conversation itself is not modelled.
 */
module Email {
  import opened Bytes

  const Star: byte := 42  // '*'
  const Amp: byte := 38  // '&'
  const Less: byte := 60  // '<'
  const Greater: byte := 62  // '>'
  const LineFeed: byte := 10  // '\n'
  const Quote: byte := 34  // '"'
  const Apostrophe: byte := 39  // '\''
  const Space: byte := 32  // ' '

  const StrongOpen: Bytes := [60, 115, 116, 114, 111, 110, 103, 62]  // "<strong>"
  const StrongClose: Bytes := [60, 47, 115, 116, 114, 111, 110, 103, 62]  // "</strong>"
  const AmpEntity: Bytes := [38, 97, 109, 112, 59]  // "&amp;"
  const LtEntity: Bytes := [38, 108, 116, 59]  // "&lt;"
  const GtEntity: Bytes := [38, 103, 116, 59]  // "&gt;"
  const QuoteEntity: Bytes := [38, 35, 51, 52, 59]  // "&#34;"
  const AposEntity: Bytes := [38, 35, 51, 57, 59]  // "&#39;"
  const BreakTag: Bytes := [60, 98, 114, 62]  // "<br>"

  /** The subject of a mail: the configured prefix and a space before the title, when there is a prefix. */
  function Subject(prefix: Bytes, title: Bytes): (s: Bytes)
    ensures |s| == |title| + (if prefix == [] then 0 else |prefix| + 1)
    ensures s[|s| - |title|..] == title
    ensures prefix != [] ==> s[..|prefix|] == prefix && s[|prefix|] == Space
  {
    if prefix == [] then title else prefix + [Space] + title
  }

  // ---------------------------------------------------------------------------
  // markdownToHTML

  /** The bytes the converter escapes rather than copies. */
  predicate Special(c: byte)
  {
    c == Amp || c == Less || c == Greater || c == LineFeed
  }

  /** One byte of text as the converter writes it: three entities, a line break tag, or itself. */
  function Escape(c: byte): (r: Bytes)
    ensures (r == [c]) <==> !Special(c)
    ensures c != LineFeed ==> Less !in r && Greater !in r
    ensures c == LineFeed ==> r == BreakTag
  {
    if c == Amp then AmpEntity
    else if c == Less then LtEntity
    else if c == Greater then GtEntity
    else if c == LineFeed then BreakTag
    else [c]
  }

  /**
   * What the converter writes, one write at a time: a bold tag for a `**` pair, one
   * (escaped) byte of text, or the closing tag added at the end when bold is still open.
   */
  datatype Token = Open | Close | Char(c: byte) | CloseAtEnd

  /** The tokens the converter produces for `s`, starting in the given bold state. */
  function Scan(s: Bytes, inBold: bool): seq<Token>
    decreases |s|
  {
    if s == [] then (if inBold then [CloseAtEnd] else [])
    else if |s| >= 2 && s[0] == Star && s[1] == Star then
      [if inBold then Close else Open] + Scan(s[2..], !inBold)
    else [Char(s[0])] + Scan(s[1..], inBold)
  }

  function Out(t: Token): Bytes
  {
    match t
    case Open => StrongOpen
    case Close => StrongClose
    case CloseAtEnd => StrongClose
    case Char(c) => Escape(c)
  }

  function Html(ts: seq<Token>): Bytes
  {
    if ts == [] then [] else Out(ts[0]) + Html(ts[1..])
  }

  /** The converter's result. */
  function Markdown(s: Bytes): Bytes
  {
    Html(Scan(s, false))
  }

  /** The input text a token stands for: two stars for a bold tag, nothing for the final tag. */
  function Source(ts: seq<Token>): Bytes
  {
    if ts == [] then []
    else
      match ts[0]
      case Open => [Star, Star] + Source(ts[1..])
      case Close => [Star, Star] + Source(ts[1..])
      case CloseAtEnd => Source(ts[1..])
      case Char(c) => [c] + Source(ts[1..])
  }

  /**
   * Tags alternate: an opening tag only outside bold, a closing tag only inside, and the
   * stream ends outside bold; the final tag is only ever the last token.
   */
  predicate WellNested(ts: seq<Token>, inBold: bool)
  {
    if ts == [] then !inBold
    else
      match ts[0]
      case Open => !inBold && WellNested(ts[1..], true)
      case Close => inBold && WellNested(ts[1..], false)
      case CloseAtEnd => inBold && ts[1..] == []
      case Char(_) => WellNested(ts[1..], inBold)
  }

  lemma SourceCons(t: Token, ts: seq<Token>)
    ensures Source([t] + ts) == Source([t]) + Source(ts)
  {
    assert ([t] + ts)[1..] == ts;
    assert [t][1..] == [];
  }

  /** One step of `ScanSource`: the token for the front of `s`, then the tokens of the rest. */
  lemma ScanSourceStep(s: Bytes, inBold: bool)
    requires s != []
    ensures |s| >= 2 && s[0] == Star && s[1] == Star ==>
      Source(Scan(s, inBold)) == s[..2] + Source(Scan(s[2..], !inBold))
    ensures !(|s| >= 2 && s[0] == Star && s[1] == Star) ==>
      Source(Scan(s, inBold)) == s[..1] + Source(Scan(s[1..], inBold))
  {
    if |s| >= 2 && s[0] == Star && s[1] == Star {
      SourceCons(if inBold then Close else Open, Scan(s[2..], !inBold));
      assert s[..2] == [Star, Star];
    } else {
      SourceCons(Char(s[0]), Scan(s[1..], inBold));
      assert s[..1] == [s[0]];
    }
  }

  /** Nothing of the input is lost: every byte is either text or part of a `**` pair. */
  lemma {:induction false} ScanSource(s: Bytes, inBold: bool)
    ensures Source(Scan(s, inBold)) == s
    decreases |s|
  {
    if s != [] {
      ScanSourceStep(s, inBold);
      if |s| >= 2 && s[0] == Star && s[1] == Star {
        ScanSource(s[2..], !inBold);
        assert s[..2] + s[2..] == s;
      } else {
        ScanSource(s[1..], inBold);
        assert s[..1] + s[1..] == s;
      }
    }
  }

  /** Bold tags are always balanced, whatever the input. */
  lemma {:induction false} ScanWellNested(s: Bytes, inBold: bool)
    ensures WellNested(Scan(s, inBold), inBold)
    decreases |s|
  {
    if s == [] {
    } else if |s| >= 2 && s[0] == Star && s[1] == Star {
      ScanWellNested(s[2..], !inBold);
      assert Scan(s, inBold)[1..] == Scan(s[2..], !inBold);
    } else {
      ScanWellNested(s[1..], inBold);
      assert Scan(s, inBold)[1..] == Scan(s[1..], inBold);
    }
  }

  lemma HtmlCons(t: Token, ts: seq<Token>)
    ensures Html([t] + ts) == Out(t) + Html(ts)
  {
    assert ([t] + ts)[1..] == ts;
  }

  /** A `**` pair becomes the tag for the current state and flips it. */
  lemma BoldPair(s: Bytes, inBold: bool)
    requires |s| >= 2 && s[0] == Star && s[1] == Star
    ensures Html(Scan(s, inBold)) == (if inBold then StrongClose else StrongOpen) + Html(Scan(s[2..], !inBold))
  {
    HtmlCons(if inBold then Close else Open, Scan(s[2..], !inBold));
  }

  /** A star not followed by another one, the last byte included, is copied as it is. */
  lemma LoneStar(s: Bytes, inBold: bool)
    requires s != [] && s[0] == Star && (|s| == 1 || s[1] != Star)
    ensures Html(Scan(s, inBold)) == [Star] + Html(Scan(s[1..], inBold))
  {
    HtmlCons(Char(Star), Scan(s[1..], inBold));
  }

  /** Any other byte is written escaped, in the same state. */
  lemma TextByte(s: Bytes, inBold: bool)
    requires s != [] && !(|s| >= 2 && s[0] == Star && s[1] == Star)
    ensures Html(Scan(s, inBold)) == Escape(s[0]) + Html(Scan(s[1..], inBold))
  {
    HtmlCons(Char(s[0]), Scan(s[1..], inBold));
  }

  /** Text with no star and no special byte comes out unchanged. */
  lemma {:induction false} PlainUnchanged(s: Bytes)
    requires forall i :: 0 <= i < |s| ==> s[i] != Star && !Special(s[i])
    ensures Markdown(s) == s
    decreases |s|
  {
    if s != [] {
      PlainUnchanged(s[1..]);
      HtmlCons(Char(s[0]), Scan(s[1..], false));
      assert s == [s[0]] + s[1..];
    }
  }

  /** `markdownToHTML`: a scan over the bytes with a bold flag, writing into a builder. */
  method MarkdownToHtml(s: Bytes) returns (out: Bytes)
    ensures out == Markdown(s)
  {
    out := [];
    var inBold := false;
    var i := 0;
    while i < |s|
      invariant 0 <= i <= |s|
      invariant out + Html(Scan(s[i..], inBold)) == Markdown(s)
    {
      ghost var rest := s[i..];
      if i + 1 < |s| && s[i] == Star && s[i + 1] == Star {
        BoldPair(rest, inBold);
        assert rest[2..] == s[i + 2..];
        var tag := if inBold then StrongClose else StrongOpen;
        AppendAssoc(out, tag, Html(Scan(s[i + 2..], !inBold)));
        out := out + tag;
        inBold := !inBold;
        i := i + 2;
      } else {
        TextByte(rest, inBold);
        assert rest[1..] == s[i + 1..];
        var ch := s[i];
        var piece: Bytes;
        if ch == Amp {
          piece := AmpEntity;
        } else if ch == Less {
          piece := LtEntity;
        } else if ch == Greater {
          piece := GtEntity;
        } else if ch == LineFeed {
          piece := BreakTag;
        } else {
          piece := [ch];
        }
        assert piece == Escape(ch);
        AppendAssoc(out, piece, Html(Scan(s[i + 1..], inBold)));
        out := out + piece;
        i := i + 1;
      }
    }
    assert s[i..] == [];
    if inBold {
      out := out + StrongClose;
    }
  }

  // ---------------------------------------------------------------------------
  // html.EscapeString

  /** One byte as html.EscapeString writes it. */
  function EscapeHtmlByte(c: byte): Bytes
  {
    if c == Amp then AmpEntity
    else if c == Apostrophe then AposEntity
    else if c == Less then LtEntity
    else if c == Greater then GtEntity
    else if c == Quote then QuoteEntity
    else [c]
  }

  /** html.EscapeString: the five characters `& ' < > "` become entities. */
  function EscapeHtml(s: Bytes): (r: Bytes)
    ensures forall i :: 0 <= i < |r| ==> r[i] != Less && r[i] != Greater && r[i] != Quote && r[i] != Apostrophe
  {
    if s == [] then [] else EscapeHtmlByte(s[0]) + EscapeHtml(s[1..])
  }

  predicate StartsWith(s: Bytes, p: Bytes)
  {
    |p| <= |s| && s[..|p|] == p
  }

  /** The inverse of `EscapeHtml`: each of the five entities becomes its character again. */
  function UnescapeHtml(s: Bytes): Bytes
    decreases |s|
  {
    if s == [] then []
    else if s[0] != Amp then [s[0]] + UnescapeHtml(s[1..])
    else if StartsWith(s, AmpEntity) then [Amp] + UnescapeHtml(s[|AmpEntity|..])
    else if StartsWith(s, AposEntity) then [Apostrophe] + UnescapeHtml(s[|AposEntity|..])
    else if StartsWith(s, LtEntity) then [Less] + UnescapeHtml(s[|LtEntity|..])
    else if StartsWith(s, GtEntity) then [Greater] + UnescapeHtml(s[|GtEntity|..])
    else if StartsWith(s, QuoteEntity) then [Quote] + UnescapeHtml(s[|QuoteEntity|..])
    else [s[0]] + UnescapeHtml(s[1..])
  }

  /** An entity at the front of `e + rest` is recognised, and the unescaping goes on after it. */
  lemma UnescapeEntity(e: Bytes, rest: Bytes)
    requires |e| >= 2 && e[0] == Amp
    ensures (e + rest)[..|e|] == e && (e + rest)[|e|..] == rest
    ensures StartsWith(e + rest, e) && (e + rest)[0] == Amp && (e + rest)[1] == e[1]
  {
  }

  lemma UnescapeAmp(rest: Bytes)
    ensures UnescapeHtml(AmpEntity + rest) == [Amp] + UnescapeHtml(rest)
  {
    UnescapeEntity(AmpEntity, rest);
  }

  lemma UnescapeApos(rest: Bytes)
    ensures UnescapeHtml(AposEntity + rest) == [Apostrophe] + UnescapeHtml(rest)
  {
    var e := AposEntity;
    UnescapeEntity(e, rest);
    assert !StartsWith(e + rest, AmpEntity) by { assert AmpEntity[1] != e[1]; }
  }

  lemma UnescapeLt(rest: Bytes)
    ensures UnescapeHtml(LtEntity + rest) == [Less] + UnescapeHtml(rest)
  {
    var e := LtEntity;
    UnescapeEntity(e, rest);
    assert !StartsWith(e + rest, AmpEntity) by { assert AmpEntity[1] != e[1]; }
    assert !StartsWith(e + rest, AposEntity) by { assert AposEntity[1] != e[1]; }
  }

  lemma UnescapeGt(rest: Bytes)
    ensures UnescapeHtml(GtEntity + rest) == [Greater] + UnescapeHtml(rest)
  {
    var e := GtEntity;
    UnescapeEntity(e, rest);
    assert !StartsWith(e + rest, AmpEntity) by { assert AmpEntity[1] != e[1]; }
    assert !StartsWith(e + rest, AposEntity) by { assert AposEntity[1] != e[1]; }
    assert !StartsWith(e + rest, LtEntity) by { assert LtEntity[1] != e[1]; }
  }

  lemma UnescapeQuote(rest: Bytes)
    ensures UnescapeHtml(QuoteEntity + rest) == [Quote] + UnescapeHtml(rest)
  {
    var e := QuoteEntity;
    UnescapeEntity(e, rest);
    assert !StartsWith(e + rest, AmpEntity) by { assert AmpEntity[1] != e[1]; }
    assert !StartsWith(e + rest, AposEntity) by { assert AposEntity[3] != e[3]; }
    assert !StartsWith(e + rest, LtEntity) by { assert LtEntity[1] != e[1]; }
    assert !StartsWith(e + rest, GtEntity) by { assert GtEntity[1] != e[1]; }
  }

  lemma UnescapePlain(c: byte, rest: Bytes)
    requires c != Amp
    ensures UnescapeHtml([c] + rest) == [c] + UnescapeHtml(rest)
  {
    assert ([c] + rest)[0] == c;
    assert ([c] + rest)[1..] == rest;
  }

  /** Each escaped byte is read back as that byte, and the unescaping goes on after it. */
  lemma UnescapeByte(c: byte, rest: Bytes)
    ensures UnescapeHtml(EscapeHtmlByte(c) + rest) == [c] + UnescapeHtml(rest)
  {
    if c == Amp {
      UnescapeAmp(rest);
    } else if c == Apostrophe {
      UnescapeApos(rest);
    } else if c == Less {
      UnescapeLt(rest);
    } else if c == Greater {
      UnescapeGt(rest);
    } else if c == Quote {
      UnescapeQuote(rest);
    } else {
      UnescapePlain(c, rest);
    }
  }

  /** Escaping loses nothing: the subject can be read back from the page. */
  lemma {:induction false} EscapeRoundTrip(s: Bytes)
    ensures UnescapeHtml(EscapeHtml(s)) == s
  {
    if s != [] {
      EscapeRoundTrip(s[1..]);
      UnescapeByte(s[0], EscapeHtml(s[1..]));
      assert s == [s[0]] + s[1..];
    }
  }

  // ---------------------------------------------------------------------------
  // buildEmailMessage

  const Crlf: Bytes := [13, 10]  // "\r\n"
  const HeaderSeparator: Bytes := [58, 32]  // ": "
  const RecipientSeparator: Bytes := [44, 32]  // ", "
  const MimeVersionValue: Bytes := [49, 46, 48]  // "1.0"
  const ContentTypeValue: Bytes := [116, 101, 120, 116, 47, 104, 116, 109, 108, 59, 32, 99, 104, 97, 114, 115, 101, 116, 61, 85, 84, 70, 45, 56]  // "text/html; charset=UTF-8"

  /** The page up to the title: doctype, `html` and `head` openings, the charset and the `title` opening tag. */
  const PageHead: Bytes :=
    [10, 60, 33, 68, 79, 67, 84, 89, 80, 69, 32, 104, 116, 109, 108, 62, 10, 60, 104, 116] +
    [109, 108, 62, 10, 60, 104, 101, 97, 100, 62, 10, 32, 32, 60, 109, 101, 116, 97, 32, 99] +
    [104, 97, 114, 115, 101, 116, 61, 34, 85, 84, 70, 45, 56, 34, 62, 10, 32, 32, 60, 116] +
    [105, 116, 108, 101, 62]

  /**
   * From the end of the title to the card heading: the style sheet (body font, the card's border and
   * colours, the content block), the `body` opening, the card with its heading line, and the opening
   * `div` of the subject line.
   */
  const PageStyle: Bytes :=
    [60, 47, 116, 105, 116, 108, 101, 62, 10, 32, 32, 60, 115, 116, 121, 108, 101, 62, 10, 32] +
    [32, 32, 32, 98, 111, 100, 121, 32, 123, 32, 102, 111, 110, 116, 45, 102, 97, 109, 105, 108] +
    [121, 58, 32, 45, 97, 112, 112, 108, 101, 45, 115, 121, 115, 116, 101, 109, 44, 66, 108, 105] +
    [110, 107, 77, 97, 99, 83, 121, 115, 116, 101, 109, 70, 111, 110, 116, 44, 83, 101, 103, 111] +
    [101, 32, 85, 73, 44, 82, 111, 98, 111, 116, 111, 44, 72, 101, 108, 118, 101, 116, 105, 99] +
    [97, 44, 65, 114, 105, 97, 108, 44, 115, 97, 110, 115, 45, 115, 101, 114, 105, 102, 59, 32] +
    [109, 97, 114, 103, 105, 110, 58, 32, 50, 48, 112, 120, 59, 32, 99, 111, 108, 111, 114, 58] +
    [32, 35, 51, 51, 51, 59, 32, 125, 10, 32, 32, 32, 32, 46, 99, 97, 114, 100, 32, 123] +
    [32, 98, 111, 114, 100, 101, 114, 45, 114, 97, 100, 105, 117, 115, 58, 32, 49, 48, 112, 120] +
    [59, 32, 98, 111, 114, 100, 101, 114, 58, 32, 49, 112, 120, 32, 115, 111, 108, 105, 100, 32] +
    [35, 102, 53, 99, 54, 99, 98, 59, 32, 98, 97, 99, 107, 103, 114, 111, 117, 110, 100, 45] +
    [99, 111, 108, 111, 114, 58, 32, 35, 102, 100, 101, 99, 101, 97, 59, 32, 112, 97, 100, 100] +
    [105, 110, 103, 58, 32, 49, 54, 112, 120, 32, 50, 48, 112, 120, 59, 32, 109, 97, 114, 103] +
    [105, 110, 45, 98, 111, 116, 116, 111, 109, 58, 32, 50, 48, 112, 120, 59, 32, 125, 10, 32] +
    [32, 32, 32, 46, 99, 97, 114, 100, 32, 104, 50, 32, 123, 32, 109, 97, 114, 103, 105, 110] +
    [58, 32, 48, 32, 48, 32, 56, 112, 120, 32, 48, 59, 32, 125, 10, 32, 32, 32, 32, 46] +
    [99, 111, 110, 116, 101, 110, 116, 32, 123, 32, 98, 97, 99, 107, 103, 114, 111, 117, 110, 100] +
    [58, 32, 35, 102, 56, 102, 57, 102, 97, 59, 32, 98, 111, 114, 100, 101, 114, 45, 114, 97] +
    [100, 105, 117, 115, 58, 32, 54, 112, 120, 59, 32, 112, 97, 100, 100, 105, 110, 103, 58, 32] +
    [49, 50, 112, 120, 32, 49, 54, 112, 120, 59, 32, 119, 104, 105, 116, 101, 45, 115, 112, 97] +
    [99, 101, 58, 32, 112, 114, 101, 45, 119, 114, 97, 112, 59, 32, 102, 111, 110, 116, 45, 102] +
    [97, 109, 105, 108, 121, 58, 32, 77, 101, 110, 108, 111, 44, 67, 111, 110, 115, 111, 108, 97] +
    [115, 44, 109, 111, 110, 111, 115, 112, 97, 99, 101, 59, 32, 125, 10, 32, 32, 60, 47, 115] +
    [116, 121, 108, 101, 62, 10, 60, 47, 104, 101, 97, 100, 62, 10, 60, 98, 111, 100, 121, 62] +
    [10, 32, 32, 60, 100, 105, 118, 32, 99, 108, 97, 115, 115, 61, 34, 99, 97, 114, 100, 34] +
    [62, 10, 32, 32, 32, 32, 60, 104, 50, 62, 240, 159, 154, 168, 32, 69, 108, 97, 115, 116] +
    [105, 99, 115, 101, 97, 114, 99, 104, 32, 230, 151, 165, 229, 191, 151, 229, 145, 138, 232, 173] +
    [166, 60, 47, 104, 50, 62, 10, 32, 32, 32, 32, 60, 100, 105, 118, 62]

  /** From the subject line to the content block: the closing `div`s and the opening `div class="content"`. */
  const PageCard: Bytes :=
    [60, 47, 100, 105, 118, 62, 10, 32, 32, 60, 47, 100, 105, 118, 62, 10, 32, 32, 60, 100] +
    [105, 118, 32, 99, 108, 97, 115, 115, 61, 34, 99, 111, 110, 116, 101, 110, 116, 34, 62]

  /** After the content: the closing `div`, `body` and `html` tags. */
  const PageEnd: Bytes :=
    [60, 47, 100, 105, 118, 62, 10, 60, 47, 98, 111, 100, 121, 62, 10, 60, 47, 104, 116, 109] +
    [108, 62, 10]

  /** The page around an escaped title and converted content: the title goes in `<title>` and in the header. */
  function Layout(title: Bytes, content: Bytes): Bytes
  {
    PageHead + title + PageStyle + title + PageCard + content + PageEnd
  }

  /** The HTML page: the escaped subject as title and card heading, then the converted body. */
  function Page(subject: Bytes, text: Bytes): Bytes
  {
    Layout(EscapeHtml(subject), Markdown(text))
  }

  datatype Header = From | To | SubjectHeader | MimeVersion | ContentType

  function HeaderName(h: Header): Bytes
  {
    match h
    case From => [70, 114, 111, 109]  // "From"
    case To => [84, 111]  // "To"
    case SubjectHeader => [83, 117, 98, 106, 101, 99, 116]  // "Subject"
    case MimeVersion => [77, 73, 77, 69, 45, 86, 101, 114, 115, 105, 111, 110]  // "MIME-Version"
    case ContentType => [67, 111, 110, 116, 101, 110, 116, 45, 84, 121, 112, 101]  // "Content-Type"
  }

  /** The header values of one message. */
  datatype Envelope = Envelope(from: Bytes, to: seq<Bytes>, subject: Bytes)

  function HeaderValue(e: Envelope, h: Header): Bytes
  {
    match h
    case From => e.from
    case To => Join(e.to, RecipientSeparator)
    case SubjectHeader => e.subject
    case MimeVersion => MimeVersionValue
    case ContentType => ContentTypeValue
  }

  function HeaderLine(e: Envelope, h: Header): Bytes
  {
    HeaderName(h) + HeaderSeparator + HeaderValue(e, h) + Crlf
  }

  /**
   * An order in which a Go map of the five headers can be iterated: each header exactly once.
   * The order itself is chosen by the runtime, so it is a parameter of the model.
   */
  predicate IsHeaderOrder(order: seq<Header>)
  {
    multiset(order) == multiset{From, To, SubjectHeader, MimeVersion, ContentType}
  }

  /** The header lines written in the given order. */
  function HeaderBlock(e: Envelope, order: seq<Header>): Bytes
  {
    if order == [] then [] else HeaderBlock(e, order[..|order| - 1]) + HeaderLine(e, order[|order| - 1])
  }

  /** The whole message: the header lines, an empty line and the page. */
  function Message(e: Envelope, order: seq<Header>, text: Bytes): Bytes
  {
    HeaderBlock(e, order) + Crlf + Page(e.subject, text)
  }

  lemma {:induction false} HeaderBlockConcat(e: Envelope, a: seq<Header>, b: seq<Header>)
    ensures HeaderBlock(e, a + b) == HeaderBlock(e, a) + HeaderBlock(e, b)
    decreases |b|
  {
    if b == [] {
      assert a + b == a;
    } else {
      var b' := b[..|b| - 1];
      var last := HeaderLine(e, b[|b| - 1]);
      HeaderBlockConcat(e, a, b');
      assert (a + b)[..|a + b| - 1] == a + b';
      assert (a + b)[|a + b| - 1] == b[|b| - 1];
      assert HeaderBlock(e, a + b) == HeaderBlock(e, a + b') + last;
      assert HeaderBlock(e, b) == HeaderBlock(e, b') + last;
      AppendAssoc(HeaderBlock(e, a), HeaderBlock(e, b'), last);
    }
  }

  /** Splitting the order at `i` splits the header block around the line of `order[i]`. */
  lemma HeaderBlockSplit(e: Envelope, order: seq<Header>, i: nat)
    requires i < |order|
    ensures HeaderBlock(e, order) == HeaderBlock(e, order[..i]) + HeaderLine(e, order[i]) + HeaderBlock(e, order[i + 1..])
  {
    assert order == order[..i] + [order[i]] + order[i + 1..];
    HeaderBlockConcat(e, order[..i] + [order[i]], order[i + 1..]);
    HeaderBlockConcat(e, order[..i], [order[i]]);
    assert HeaderBlock(e, [order[i]]) == HeaderLine(e, order[i]) by {
      assert [order[i]][..0] == [];
    }
  }

  /** An iteration order holds each header exactly once. */
  lemma HeaderCount(order: seq<Header>, h: Header)
    requires IsHeaderOrder(order)
    ensures multiset(order)[h] == 1
  {
    match h
    case From =>
    case To =>
    case SubjectHeader =>
    case MimeVersion =>
    case ContentType =>
  }

  /** Whatever the iteration order, each header's line is written once, between the lines before and after it. */
  lemma HeaderOnce(e: Envelope, order: seq<Header>, h: Header)
    requires IsHeaderOrder(order)
    ensures multiset(order)[h] == 1
    ensures exists i :: (0 <= i < |order| && order[i] == h &&
                         HeaderBlock(e, order) == HeaderBlock(e, order[..i]) + HeaderLine(e, h) + HeaderBlock(e, order[i + 1..]))
  {
    HeaderCount(order, h);
    assert h in order by {
      assert h in multiset(order);
    }
    var i :| 0 <= i < |order| && order[i] == h;
    HeaderBlockSplit(e, order, i);
  }

  /**
   * The message holds each header's line once: the header block around it, then the empty
   * line and the page.
   */
  lemma MessageHeader(e: Envelope, order: seq<Header>, text: Bytes, h: Header)
    requires IsHeaderOrder(order)
    ensures multiset(order)[h] == 1
    ensures exists i :: (0 <= i < |order| && order[i] == h &&
                         Message(e, order, text) ==
                           HeaderBlock(e, order[..i]) + HeaderLine(e, h) + HeaderBlock(e, order[i + 1..])
                           + Crlf + Page(e.subject, text))
  {
    HeaderOnce(e, order, h);
    var i :| 0 <= i < |order| && order[i] == h &&
             HeaderBlock(e, order) == HeaderBlock(e, order[..i]) + HeaderLine(e, h) + HeaderBlock(e, order[i + 1..]);
    assert Message(e, order, text) == HeaderBlock(e, order) + Crlf + Page(e.subject, text);
  }

  /** The header loop of `buildEmailMessage`: one `name: value` line per header, in iteration order. */
  method WriteHeaders(from: Bytes, to: seq<Bytes>, subject: Bytes, order: seq<Header>) returns (block: Bytes)
    requires IsHeaderOrder(order)
    ensures block == HeaderBlock(Envelope(from, to, subject), order)
  {
    ghost var e := Envelope(from, to, subject);
    block := [];
    for i := 0 to |order|
      invariant block == HeaderBlock(e, order[..i])
    {
      var h := order[i];
      var value: Bytes;
      match h {
        case From => value := from;
        case To => value := Join(to, RecipientSeparator);
        case SubjectHeader => value := subject;
        case MimeVersion => value := MimeVersionValue;
        case ContentType => value := ContentTypeValue;
      }
      block := block + (HeaderName(h) + HeaderSeparator + value + Crlf);
      assert order[..i + 1][..i] == order[..i];
    }
    assert order[..|order|] == order;
  }

  /**
   * `buildEmailMessage`: converts the body to HTML, fills the page, then writes the header
   * lines in the header map's iteration order `order`, an empty line and the page.
   */
  method BuildEmailMessage(from: Bytes, to: seq<Bytes>, subject: Bytes, text: Bytes, order: seq<Header>)
    returns (msg: Bytes)
    requires IsHeaderOrder(order)
    ensures msg == Message(Envelope(from, to, subject), order, text)
  {
    var formatted := MarkdownToHtml(text);
    var title := EscapeHtml(subject);
    var page := Layout(title, formatted);
    var block := WriteHeaders(from, to, subject, order);
    msg := block + Crlf + page;
  }
}
