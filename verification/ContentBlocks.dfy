/** Message content between the OpenAI and the Anthropic form. Images travel as data URIs in
    the base64 form of section 3 of RFC 2397. */
module ContentBlocks {
  import opened Options

  /** An Anthropic image source; None for a missing media type. */
  datatype Source = Source(kind: string, mediaType: Option<string>, data: string)

  /** The blocks of both forms. Tool inputs are carried through unread. */
  datatype Block =
    | Text(text: string)
    | Image(source: Source)
    | ImageUrl(url: string)
    | ToolUse(id: string, name: string, input: string)
    | ToolResult(toolUseId: string, content: string)
    | Other(kind: string)

  datatype Content = Plain(text: string) | Blocks(blocks: seq<Block>)

  // ------------------------------------------------- data URIs

  const DATA := "data:"
  const IMAGE := "image/"
  const BASE64 := "base64"
  const MARK := ";base64,"
  const PNG := "image/png"

  predicate StartsWith(text: string, prefix: string) {
    |prefix| <= |text| && text[..|prefix|] == prefix
  }

  /** The position of the first `c`, or the length of the text. */
  function Find(text: string, c: char): (i: nat)
    ensures i <= |text| && (i < |text| ==> text[i] == c) && forall j :: 0 <= j < i ==> text[j] != c
  {
    if text == "" || text[0] == c then 0 else 1 + Find(text[1..], c)
  }

  /** The text before the first `c`, and the text after it. */
  function Head(text: string, c: char): string {
    text[..Find(text, c)]
  }

  function Rest(text: string, c: char): string {
    if Find(text, c) < |text| then text[Find(text, c) + 1..] else ""
  }

  datatype DataUri = DataUri(mimeType: string, data: string)

  /** _parse_data_uri. */
  function Parse(url: string): Option<DataUri> {
    if !StartsWith(url, DATA) then None
    else
      var header := Head(url, ',');
      var mime := if Find(header, ':') < |header| then Rest(header, ':') else "text/plain";
      Some(DataUri(Head(mime, ';'), Rest(url, ',')))
  }

  function Print(mediaType: string, data: string): string {
    DATA + mediaType + MARK + data
  }

  /** _parse_data_uri_to_anthropic_source. */
  function ToSource(url: string): Option<Source> {
    var parsed := Parse(url);
    if parsed.None? || !StartsWith(parsed.value.mimeType, IMAGE) then None
    else Some(Source(BASE64, Some(parsed.value.mimeType), parsed.value.data))
  }

  /** _anthropic_source_to_data_uri. */
  function ToUri(source: Source): Option<string> {
    if source.kind != BASE64 || source.data == "" then None
    else Some(Print(if source.mediaType.Some? then source.mediaType.value else PNG, source.data))
  }

  lemma FindIs(text: string, c: char, i: nat)
    requires i < |text| && text[i] == c && forall j :: 0 <= j < i ==> text[j] != c
    ensures Find(text, c) == i
  {
  }

  /** Splitting a text at the first `c`, when the part before it has none. */
  lemma SplitAt(before: string, c: char, after: string)
    requires forall j :: 0 <= j < |before| ==> before[j] != c
    ensures Head(before + [c] + after, c) == before && Rest(before + [c] + after, c) == after
    ensures Find(before + [c] + after, c) == |before|
  {
    FindIs(before + [c] + after, c, |before|);
  }

  /** What is parsed from a printed URI: the type up to the first comma or semicolon. */
  lemma ParsePrinted(mediaType: string, data: string)
    requires ',' !in mediaType && ';' !in mediaType
    ensures Parse(Print(mediaType, data)) == Some(DataUri(mediaType, data))
  {
    var url := Print(mediaType, data);
    var header := DATA + mediaType + ";base64";
    assert url == header + [','] + data;
    SplitAt(header, ',', data);
    assert url[..5] == DATA;
    assert header == "data" + [':'] + (mediaType + ";base64");
    SplitAt("data", ':', mediaType + ";base64");
    assert mediaType + ";base64" == mediaType + [';'] + "base64";
    SplitAt(mediaType, ';', "base64");
  }

  lemma HeaderMime(head: string, mime: string, rest: string)
    requires ';' !in mime && (head == mime || head == mime + ";" + rest)
    ensures var header := DATA + head;
            Find(header, ':') < |header| && Head(Rest(header, ':'), ';') == mime
  {
    assert DATA + head == "data" + [':'] + head;
    SplitAt("data", ':', head);
    if head == mime {
      assert Find(head, ';') == |head|;
    } else {
      assert head == mime + [';'] + rest;
      SplitAt(mime, ';', rest);
    }
  }

  /** What is parsed from any data URI: the type is what stands before the first semicolon of
      the header, and the data what stands after its first comma. */
  lemma ParseExactly(head: string, data: string, mime: string, rest: string)
    requires ',' !in head && ';' !in mime && (head == mime || head == mime + ";" + rest)
    ensures Parse("data:" + head + "," + data) == Some(DataUri(mime, data))
    ensures Parse("data:" + head) == Some(DataUri(mime, ""))
    ensures forall url :: !StartsWith(url, "data:") ==> Parse(url) == None
  {
    var header := "data:" + head;
    HeaderMime(head, mime, rest);
    NoCommaAhead(head);
    HeadOf(header, data);
    var url := header + [','] + data;
    assert "data:" + head + "," + data == url;
    ParseSplits(url, mime, data);
    ParseSplits(header, mime, "");
  }

  lemma NoCommaAhead(head: string)
    requires ',' !in head
    ensures ',' !in "data:" + head
  {
  }

  lemma ParseSplits(url: string, mime: string, data: string)
    requires |url| >= 5 && url[..5] == DATA && Rest(url, ',') == data
    requires Find(Head(url, ','), ':') < |Head(url, ',')| && Head(Rest(Head(url, ','), ':'), ';') == mime
    ensures Parse(url) == Some(DataUri(mime, data))
  {
  }

  lemma HeadOf(header: string, data: string)
    requires ',' !in header
    ensures Head(header + [','] + data, ',') == header && Rest(header + [','] + data, ',') == data
    ensures Head(header, ',') == header && Rest(header, ',') == ""
  {
    SplitAt(header, ',', data);
    assert Find(header, ',') == |header|;
  }

  /** The header of a printed URI ends no later than the mark. */
  lemma HeaderWithin(mediaType: string, data: string)
    ensures var header := Head(Print(mediaType, data), ',');
            && 5 <= |header| && header[..5] == DATA && header[5..] <= mediaType + ";base64"
            && (mediaType <= header[5..] ==> ',' !in mediaType)
  {
    var url := Print(mediaType, data);
    var comma := Find(url, ',');
    assert url[..5] == DATA && url == DATA + (mediaType + MARK + data);
    assert url[5 + |mediaType| + 7] == MARK[7] == ',';
    assert forall j :: 0 <= j < 5 ==> url[j] == DATA[j];
    if mediaType <= url[..comma][5..] {
      assert forall j :: 0 <= j < |mediaType| ==> mediaType[j] == url[5 + j];
    }
  }

  /** Whatever the media type, the parsed type is a prefix of it, and shorter if the media
      type has a comma or a semicolon. */
  lemma ParsedIsPrefix(mediaType: string, data: string)
    ensures var p := Parse(Print(mediaType, data));
            && p.Some? && p.value.mimeType <= mediaType
            && (p.value.mimeType == mediaType ==> ',' !in mediaType && ';' !in mediaType)
  {
    var url := Print(mediaType, data);
    assert url[..5] == DATA;
    HeaderWithin(mediaType, data);
    var header := Head(url, ',');
    FindIs(header, ':', 4);
    var part := header[5..];
    var end := Find(part, ';');
    assert end <= |mediaType| by {
      assert |part| > |mediaType| ==> part[|mediaType|] == ';';
    }
    assert Head(part, ';') == part[..end] <= mediaType;
  }

  /** An image source that survives the trip to a URI and back. */
  predicate Portable(source: Source) {
    && source.kind == BASE64 && source.data != ""
    && source.mediaType.Some? && StartsWith(source.mediaType.value, IMAGE)
    && ',' !in source.mediaType.value && ';' !in source.mediaType.value
  }

  lemma SourceRoundTrip(source: Source)
    ensures (ToUri(source).Some? && ToSource(ToUri(source).value) == Some(source)) <==> Portable(source)
  {
    if source.kind == BASE64 && source.data != "" {
      var media := if source.mediaType.Some? then source.mediaType.value else PNG;
      ParsedIsPrefix(media, source.data);
      if ',' !in media && ';' !in media {
        ParsePrinted(media, source.data);
      }
    }
  }

  // ------------------------------------------------- the converters

  /** One Anthropic block in OpenAI form; None when it is left out. */
  function Outward(b: Block): Option<Block> {
    match b
    case Image(source) => if ToUri(source).Some? then Some(ImageUrl(ToUri(source).value)) else None
    case ImageUrl(_) => None
    case Other(_) => None
    case _ => Some(b)
  }

  /** One OpenAI block in Anthropic form. */
  function Inward(b: Block): Option<Block> {
    match b
    case ImageUrl(url) => if ToSource(url).Some? then Some(Image(ToSource(url).value)) else None
    case Other(_) => None
    case _ => Some(b)
  }

  function Optional(b: Option<Block>): seq<Block> {
    if b.Some? then [b.value] else []
  }

  function AllOutward(blocks: seq<Block>): seq<Block> {
    if blocks == [] then [] else AllOutward(blocks[..|blocks| - 1]) + Optional(Outward(blocks[|blocks| - 1]))
  }

  function AllInward(blocks: seq<Block>): seq<Block> {
    if blocks == [] then [] else AllInward(blocks[..|blocks| - 1]) + Optional(Inward(blocks[|blocks| - 1]))
  }

  predicate HasNonText(blocks: seq<Block>) {
    exists i :: 0 <= i < |blocks| && !blocks[i].Text?
  }

  function Joined(blocks: seq<Block>): string {
    if blocks == [] then ""
    else if |blocks| == 1 then TextOf(blocks[0])
    else TextOf(blocks[0]) + "\n" + Joined(blocks[1..])
  }

  function TextOf(b: Block): string {
    if b.Text? then b.text else ""
  }

  function OpenAi(content: Content): Content {
    match content
    case Plain(_) => content
    case Blocks(blocks) =>
      var out := AllOutward(blocks);
      if out == [] then Plain("") else if HasNonText(out) then Blocks(out) else Plain(Joined(out))
  }

  function Anthropic(content: Content): seq<Block> {
    match content
    case Plain(text) => [Text(text)]
    case Blocks(blocks) => AllInward(blocks)
  }

  method OpenAiToAnthropicContent(content: Content) returns (blocks: seq<Block>)
    ensures blocks == Anthropic(content)
  {
    if content.Plain? {
      return [Text(content.text)];
    }
    blocks := [];
    for i := 0 to |content.blocks|
      invariant blocks == AllInward(content.blocks[..i])
    {
      assert content.blocks[..i + 1][..i] == content.blocks[..i];
      match content.blocks[i] {
        case ImageUrl(url) =>
          var source := ToSource(url);
          if source.Some? {
            blocks := blocks + [Image(source.value)];
          }
        case Other(_) =>
        case b =>
          blocks := blocks + [b];
      }
    }
    assert content.blocks[..|content.blocks|] == content.blocks;
  }

  method AnthropicToOpenAiContent(content: Content) returns (r: Content)
    ensures r == OpenAi(content)
  {
    if content.Plain? {
      return content;
    }
    var blocks: seq<Block>, hasNonText := [], false;
    for i := 0 to |content.blocks|
      invariant blocks == AllOutward(content.blocks[..i])
      invariant hasNonText == HasNonText(blocks)
    {
      assert content.blocks[..i + 1][..i] == content.blocks[..i];
      var b := content.blocks[i];
      ghost var was := blocks;
      match b {
        case Text(_) =>
          blocks := blocks + [b];
        case Image(source) =>
          var uri := ToUri(source);
          if uri.Some? {
            blocks := blocks + [ImageUrl(uri.value)];
            hasNonText := true;
          }
        case ToolUse(_, _, _) =>
          blocks := blocks + [b];
          hasNonText := true;
        case ToolResult(_, _) =>
          blocks := blocks + [b];
          hasNonText := true;
        case _ =>
      }
      NonTextGrows(was, Outward(b));
    }
    assert content.blocks[..|content.blocks|] == content.blocks;
    if blocks == [] {
      return Plain("");
    }
    r := if hasNonText then Blocks(blocks) else Plain(Joined(blocks));
  }

  lemma NonTextGrows(blocks: seq<Block>, b: Option<Block>)
    ensures HasNonText(blocks + Optional(b)) <==> HasNonText(blocks) || (b.Some? && !b.value.Text?)
  {
    var longer := blocks + Optional(b);
    if i :| 0 <= i < |blocks| && !blocks[i].Text? {
      assert longer[i] == blocks[i];
    }
    if b.Some? {
      assert longer[|blocks|] == b.value;
    }
  }

  // ------------------------------------------------- there and back

  /** A block that comes back as it was. */
  predicate Kept(b: Block) {
    match b
    case Text(_) => true
    case ToolUse(_, _, _) => true
    case ToolResult(_, _) => true
    case Image(source) => Portable(source)
    case _ => false
  }

  function Back(b: Block): Option<Block> {
    if Outward(b).Some? then Inward(Outward(b).value) else None
  }

  lemma KeptExactly(b: Block)
    ensures Back(b) == Some(b) <==> Kept(b)
  {
    if b.Image? {
      SourceRoundTrip(b.source);
    }
  }

  lemma InwardAppend(a: seq<Block>, b: Option<Block>)
    ensures AllInward(a + Optional(b)) == AllInward(a) + (if b.Some? then Optional(Inward(b.value)) else [])
  {
    if b.Some? {
      assert (a + [b.value])[..|a|] == a;
    } else {
      assert a + [] == a;
    }
  }

  predicate AllKept(blocks: seq<Block>) {
    forall i :: 0 <= i < |blocks| ==> Kept(blocks[i])
  }

  function Trip(blocks: seq<Block>): seq<Block> {
    AllInward(AllOutward(blocks))
  }

  lemma TripUnfolds(most: seq<Block>, last: Block)
    ensures Trip(most + [last]) == Trip(most) + Optional(Back(last))
  {
    assert (most + [last])[..|most|] == most;
    InwardAppend(AllOutward(most), Outward(last));
  }

  lemma AllKeptUnfolds(most: seq<Block>, last: Block)
    ensures AllKept(most + [last]) <==> AllKept(most) && Kept(last)
  {
    var blocks := most + [last];
    assert blocks[|most|] == last && forall i :: 0 <= i < |most| ==> blocks[i] == most[i];
  }

  /** Block by block: the trip never adds blocks, and is the identity exactly when each block
      comes back. */
  lemma {:induction false} BlocksRoundTrip(blocks: seq<Block>)
    ensures |Trip(blocks)| <= |blocks|
    ensures Trip(blocks) == blocks <==> AllKept(blocks)
  {
    if blocks != [] {
      var most, last := blocks[..|blocks| - 1], blocks[|blocks| - 1];
      assert blocks == most + [last];
      BlocksRoundTrip(most);
      TripUnfolds(most, last);
      KeptExactly(last);
      AppendEqual(Trip(most), Back(last), most, last);
      AllKeptUnfolds(most, last);
    }
  }

  lemma AppendEqual(a: seq<Block>, x: Option<Block>, b: seq<Block>, y: Block)
    requires |a| <= |b|
    ensures a + Optional(x) == b + [y] <==> a == b && x == Some(y)
  {
    if a + Optional(x) == b + [y] {
      assert |a + Optional(x)| == |b| + 1;
      assert (a + Optional(x))[..|b|] == (b + [y])[..|b|];
      assert (a + Optional(x))[|b|] == y;
    }
  }

  lemma {:induction false} OutwardNonText(blocks: seq<Block>)
    requires AllKept(blocks)
    ensures HasNonText(AllOutward(blocks)) <==> HasNonText(blocks)
    ensures !HasNonText(blocks) ==> AllOutward(blocks) == blocks
  {
    if blocks != [] {
      var most, last := blocks[..|blocks| - 1], blocks[|blocks| - 1];
      OutwardNonText(most);
      NonTextGrows(AllOutward(most), Outward(last));
      NonTextGrows(most, Some(last));
      assert blocks == most + Optional(Some(last));
    }
  }

  /** From the Anthropic form to the OpenAI form and back is the identity if and only if every
      block is a text, a tool block or an image with a base64 source, data, and a media type
      that starts with "image/" and has no comma or semicolon; and besides, some block is no
      text, or there is just one block. Several texts alone come back as one; no blocks at all
      come back as one empty text. */
  lemma ContentRoundTrip(blocks: seq<Block>)
    ensures Anthropic(OpenAi(Blocks(blocks))) == blocks <==> AllKept(blocks) && (HasNonText(blocks) || |blocks| == 1)
  {
    BlocksRoundTrip(blocks);
    var out := AllOutward(blocks);
    if AllKept(blocks) {
      OutwardNonText(blocks);
      if |blocks| == 1 && !HasNonText(blocks) {
        assert blocks[0].Text? && out == blocks;
        assert blocks == [Text(blocks[0].text)];
      }
    } else if !HasNonText(out) && |blocks| == 1 {
      assert blocks[..0] == [] && AllOutward(blocks) == [] + Optional(Outward(blocks[0]));
      assert !blocks[0].Text?;
    }
  }

  /** Plain content comes back as one text block with the same text. */
  lemma PlainRoundTrip(text: string)
    ensures OpenAi(Blocks(Anthropic(Plain(text)))) == Plain(text)
  {
    var blocks := [Text(text)];
    assert blocks[..0] == [] && AllOutward(blocks) == [] + blocks;
  }

  // ------------------------------------------------- block by block

  /** What the converter to the OpenAI form makes of one more block: texts and tool blocks stay,
      an image with base64 data becomes a data URI (of a PNG when no type is given), and
      anything else is left out. */
  lemma OneMoreOutward(blocks: seq<Block>, b: Block)
    ensures AllOutward([]) == []
    ensures AllOutward(blocks + [b])
            == AllOutward(blocks)
               + match b
                 case Image(source) =>
                   if source.kind != "base64" || source.data == "" then []
                   else
                     var media := if source.mediaType.Some? then source.mediaType.value else "image/png";
                     [ImageUrl("data:" + media + ";base64," + source.data)]
                 case Text(_) => [b]
                 case ToolUse(_, _, _) => [b]
                 case ToolResult(_, _) => [b]
                 case ImageUrl(_) => []
                 case Other(_) => []
  {
    assert (blocks + [b])[..|blocks|] == blocks;
  }

  /** And what the converter to the Anthropic form makes of it: a data URI of an image becomes
      an image with the type and the data of the URI. */
  lemma OneMoreInward(blocks: seq<Block>, b: Block)
    ensures AllInward([]) == []
    ensures match b
            case ImageUrl(url) =>
              && (!StartsWith(url, "data:") ==> AllInward(blocks + [b]) == AllInward(blocks))
              && (forall media, data ::
                    ',' !in media && ';' !in media && url == "data:" + media + ";base64," + data ==>
                      AllInward(blocks + [b])
                      == AllInward(blocks)
                         + if StartsWith(media, "image/") then [Image(Source("base64", Some(media), data))] else [])
            case Text(_) => AllInward(blocks + [b]) == AllInward(blocks) + [b]
            case Image(_) => AllInward(blocks + [b]) == AllInward(blocks) + [b]
            case ToolUse(_, _, _) => AllInward(blocks + [b]) == AllInward(blocks) + [b]
            case ToolResult(_, _) => AllInward(blocks + [b]) == AllInward(blocks) + [b]
            case Other(_) => AllInward(blocks + [b]) == AllInward(blocks)
  {
    assert (blocks + [b])[..|blocks|] == blocks;
    if b.ImageUrl? {
      forall media, data | ',' !in media && ';' !in media && b.url == "data:" + media + ";base64," + data
        ensures Parse(b.url) == Some(DataUri(media, data))
      {
        ParsePrinted(media, data);
        assert b.url == Print(media, data);
      }
    }
  }

  /** Texts alone are joined by line breaks. */
  lemma {:induction false} OneMoreText(texts: seq<Block>, text: string)
    requires forall i :: 0 <= i < |texts| ==> texts[i].Text?
    ensures Joined(texts + [Text(text)]) == if texts == [] then text else Joined(texts) + "\n" + text
  {
    var longer := texts + [Text(text)];
    if |texts| > 1 {
      OneMoreText(texts[1..], text);
      assert longer[1..] == texts[1..] + [Text(text)];
    } else if |texts| == 1 {
      assert longer[1..] == [Text(text)];
    }
  }

  /** Content without anything but texts is one text for the OpenAI form, and none at all is the
      empty one; otherwise its blocks stay blocks. */
  lemma OpenAiExactly(blocks: seq<Block>)
    ensures var out := AllOutward(blocks);
            OpenAi(Blocks(blocks))
            == if exists i :: 0 <= i < |out| && !out[i].Text? then Blocks(out) else Plain(Joined(out))
  {
  }
}
