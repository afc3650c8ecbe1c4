/** GenerateOutputData: the extension and the text of the file one feed
    item becomes, from the item and its feed's rendering options. */
module Render {
  import opened Entities

  datatype Output = Output(ext: string, content: string)

  predicate IsPrefix(p: string, s: string) {
    |p| <= |s| && s[..|p|] == p
  }

  predicate IsSuffix(p: string, s: string) {
    |p| <= |s| && s[|s| - |p|..] == p
  }

  /** The original link is shown only when the feed asks for it and the item has one. */
  predicate ShowsLink(opts: Feed, item: Item) {
    opts.showLink && item.link != ""
  }

  /** The HTML heading: the title, hyperlinked to the item when the link is shown. */
  function Heading(opts: Feed, item: Item): string {
    if ShowsLink(opts, item) then "<h1><a href=\"" + item.link + "\">" + item.title + "</a></h1>"
    else "<h1>" + item.title + "</h1>"
  }

  /** Plain text: the title line, then a line with the link when it is
      shown, then an empty line, then the item body converted by `toText`
      (extension "txt"). HTML: the heading, a line break and the body
      verbatim (extension "html"). `lb` is the platform line break. */
  function GenerateOutputData(opts: Feed, item: Item, lb: string, toText: string -> string): (r: Output)
    ensures r.ext == if opts.plainText then "txt" else "html"
  {
    if opts.plainText then
      var outContent := toText(item.content);
      var link := if ShowsLink(opts, item) then lb + item.link else "";
      Output("txt", item.title + link + lb + lb + outContent)
    else
      Output("html", Heading(opts, item) + lb + item.content)
  }

  /** The layout of a rendered item: in plain text the title, the link line
      when shown and the converted body after an empty line; in HTML the
      heading and the verbatim body on the next line. */
  lemma OutputLayout(opts: Feed, item: Item, lb: string, toText: string -> string)
    ensures var r := GenerateOutputData(opts, item, lb, toText);
      opts.plainText ==>
      var body := lb + lb + toText(item.content);
      && IsPrefix(item.title, r.content)
      && IsSuffix(body, r.content)
      && |item.title| + |body| <= |r.content|
      && r.content[|item.title|..|r.content| - |body|] == (if ShowsLink(opts, item) then lb + item.link else "")
    ensures var r := GenerateOutputData(opts, item, lb, toText);
      !opts.plainText ==>
      var body := lb + item.content;
      && IsSuffix(body, r.content)
      && r.content[..|r.content| - |body|] == Heading(opts, item)
  {
    if opts.plainText {
      var link := if ShowsLink(opts, item) then lb + item.link else "";
      var body := lb + lb + toText(item.content);
      ThreeParts(item.title, link, body);
      assert item.title + link + lb + lb + toText(item.content) == item.title + link + body;
    } else {
      var body := lb + item.content;
      ThreeParts(Heading(opts, item), "", body);
      assert Heading(opts, item) + lb + item.content == Heading(opts, item) + "" + body;
    }
  }

  lemma ThreeParts(a: string, b: string, c: string)
    ensures var s := a + b + c;
      && s[..|a|] == a && s[|a|..|s| - |c|] == b && s[|s| - |c|..] == c
  {
  }

  /** The URL and the caching options of a feed play no part in how its
      items are rendered. */
  lemma RenderingDependsOnlyOnOptions(a: Feed, b: Feed, item: Item, lb: string, toText: string -> string)
    requires a.plainText == b.plainText && a.showLink == b.showLink
    ensures GenerateOutputData(a, item, lb, toText) == GenerateOutputData(b, item, lb, toText)
  {
  }

  /** An HTML item with a shown link. */
  lemma HtmlWithLinkExample(toText: string -> string)
    ensures GenerateOutputData(Feed("u", false, true, false, 0), Item("T", "L", "B", None, None), "\n", toText)
         == Output("html", "<h1><a href=\"L\">T</a></h1>\nB")
  {
  }

  /** A plain-text item whose feed asks for the link, on Windows line breaks. */
  lemma PlainTextWithLinkExample(toText: string -> string)
    requires toText("<p>hi</p>") == "hi"
    ensures GenerateOutputData(Feed("u", true, true, false, 0), Item("T", "http://x", "<p>hi</p>", None, None), "\r\n", toText)
         == Output("txt", "T\r\nhttp://x\r\n\r\nhi")
  {
  }
}
