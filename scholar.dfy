/**
 The article library of the Semantic Scholar demo app (scholar_app.py): an
 append-only list of article strings kept as the agent's dependency object, its
 markdown rendering, and the two agent tools that add to it and read it.
 */
module ScholarApp {
  import opened Outcomes
  import opened PyText

  /** The bullet line of one entry: `f"- {entry}"`. */
  function Bullet(entry: string): string
  {
    "- " + entry
  }

  /** The bullet lines of the entries, in order. */
  function Bullets(entries: seq<string>): (r: seq<string>)
    ensures |r| == |entries|
    ensures forall i :: 0 <= i < |entries| ==> r[i] == Bullet(entries[i])
  {
    seq(|entries|, i requires 0 <= i < |entries| => Bullet(entries[i]))
  }

  /** The markdown a library renders to: "None" when it is empty, otherwise one
      bullet line per entry joined by newlines, starting with the first entry's. */
  function Markdown(entries: seq<string>): (r: string)
    ensures r == "None" <==> entries == []
    ensures entries != [] ==> |r| >= |Bullet(entries[0])| && r[..|Bullet(entries[0])|] == Bullet(entries[0])
  {
    if entries == [] then "None"
    else
      JoinStartsWithFirst(Bullets(entries), '\n');
      var r := Join(Bullets(entries), '\n');
      assert r[0] == Bullet(entries[0])[0] == '-';
      r
  }

  /** The library is the agent's memory: articles in the order they were saved. */
  class Library {
    var library: seq<string>

    /** A new library holds no article. */
    constructor ()
      ensures library == []
    {
      library := [];
    }

    /** `add(article)`: saves the article after all the earlier ones. */
    method Add(article: string)
      modifies this
      ensures library == old(library) + [article]
    {
      library := library + [article];
    }

    /** `as_markdown()`: "None" exactly when no article is saved, otherwise
        the saved articles' bullet lines. */
    function AsMarkdown(): (r: string)
      reads this
      ensures r == "None" <==> library == []
      ensures library != [] ==> |r| >= |Bullet(library[0])| && r[..|Bullet(library[0])|] == Bullet(library[0])
    {
      Markdown(library)
    }
  }

  /** Entries without a newline render to exactly one line each, in insertion
      order, each the entry with its bullet, and nothing after the last one. */
  lemma MarkdownLines(entries: seq<string>)
    requires |entries| > 0
    requires forall i :: 0 <= i < |entries| ==> '\n' !in entries[i]
    ensures Split(Markdown(entries), '\n') == Bullets(entries)
    ensures |Split(Markdown(entries), '\n')| == |entries|
  {
    var lines := Bullets(entries);
    forall i | 0 <= i < |lines|
      ensures '\n' !in lines[i]
    {
      assert lines[i] == "- " + entries[i];
    }
    SplitJoin(lines, '\n');
  }

  /** Saving one more article adds one line for it at the end of the rendering
      and leaves the lines before it as they were. */
  lemma MarkdownAppend(entries: seq<string>, article: string)
    ensures entries == [] ==> Markdown(entries + [article]) == Bullet(article)
    ensures entries != [] ==> Markdown(entries + [article]) == Markdown(entries) + ['\n'] + Bullet(article)
  {
    if entries != [] {
      assert Bullets(entries + [article]) == Bullets(entries) + [Bullet(article)];
      JoinAppend(Bullets(entries), Bullet(article), '\n');
    }
  }

  /** Reads a rendering back into the entries: "None" is the empty library, and
      any other text is split into lines, each losing its bullet. */
  function ReadMarkdown(md: string): seq<string>
  {
    if md == "None" then []
    else
      var lines := Split(md, '\n');
      seq(|lines|, i requires 0 <= i < |lines| => if |lines[i]| >= 2 then lines[i][2..] else lines[i])
  }

  /** The rendering loses nothing when no entry holds a newline: reading it back
      gives the library's entries, in order. */
  lemma ReadMarkdownRoundTrip(entries: seq<string>)
    requires forall i :: 0 <= i < |entries| ==> '\n' !in entries[i]
    ensures ReadMarkdown(Markdown(entries)) == entries
  {
    if entries != [] {
      MarkdownLines(entries);
      var lines := Split(Markdown(entries), '\n');
      forall i | 0 <= i < |entries|
        ensures lines[i][2..] == entries[i]
      {
        assert lines[i] == "- " + entries[i];
      }
    }
  }

  /** The text before the size in `add_to_library`'s reply. */
  const AddedPrefix: string := "Article added. Current library size: "

  /** `add_to_library`'s reply for a library of `size` articles. */
  function AddedMessage(size: nat): string
  {
    AddedPrefix + NatToString(size)
  }

  /** Reads the library size back from a reply, if the text is one. */
  function ReportedSize(msg: string): Option<nat>
  {
    if |msg| > |AddedPrefix| && msg[..|AddedPrefix|] == AddedPrefix && IsDigits(msg[|AddedPrefix|..])
    then Some(ParseNat(msg[|AddedPrefix|..]))
    else None
  }

  /** The reply reports the size exactly: it reads back as the same number, so
      replies for different sizes differ. */
  lemma ReportedSizeOfAddedMessage(size: nat)
    ensures ReportedSize(AddedMessage(size)) == Some(size)
  {
    var msg := AddedMessage(size);
    assert msg[..|AddedPrefix|] == AddedPrefix;
    assert msg[|AddedPrefix|..] == NatToString(size);
    ParseNatToString(size);
  }

  /** The `add_to_library` tool: saves the article in the agent's library and
      replies with the library's size after the append. */
  method AddToLibrary(lib: Library, article: string) returns (msg: string)
    modifies lib
    ensures lib.library == old(lib.library) + [article]
    ensures msg == AddedMessage(|old(lib.library)| + 1)
  {
    lib.Add(article);
    msg := AddedPrefix + NatToString(|lib.library|);
  }

  /** The `get_library` tool: the library's markdown, the library unchanged. */
  method GetLibrary(lib: Library) returns (md: string)
    ensures md == Markdown(lib.library)
    ensures md == "None" <==> lib.library == []
  {
    md := lib.AsMarkdown();
  }
}
