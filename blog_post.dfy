/**
 * The blog detail page: finding a post by its slug and turning the post's
 * lightweight markup into a list of blocks, one per line.
 */
module BlogPost {
  import opened Wrappers
  import opened Text

  /** A blog post record as stored in the static post table. */
  datatype Post = Post(
    id: string,
    title: string,
    slug: string,
    excerpt: string,
    content: string,
    date: string,
    readTime: string,
    tags: seq<string>)

  /**
   * What one content line renders as. `Skip` is the `null` a code-fence line
   * yields: React renders nothing for it.
   */
  datatype Block = H1(text: string) | H2(text: string) | H3(text: string) | Skip | Li(text: string) | Br | P(text: string)

  /** What the detail route renders. */
  datatype View = NotFound(backLink: string) | Article(post: Post, body: seq<Block>)

  const BlogListPath: string := "/blog"
  const Fence: string := "```"

  // ---------------------------------------------------------------- lookup

  /** `posts.find(p => p.slug === slug)` */
  function FindBySlug(posts: seq<Post>, slug: string): (r: Option<Post>)
    ensures r.None? <==> forall i :: 0 <= i < |posts| ==> posts[i].slug != slug
    ensures r.Some? ==> exists i :: 0 <= i < |posts| && posts[i] == r.value && posts[i].slug == slug &&
                                    forall j :: 0 <= j < i ==> posts[j].slug != slug
  {
    if posts == [] then None
    else if posts[0].slug == slug then Some(posts[0])
    else
      var r := FindBySlug(posts[1..], slug);
      assert forall i :: 1 <= i < |posts| ==> posts[i] == posts[1..][i - 1];
      r
  }

  /** When slugs are unique, the post found is THE post with that slug. */
  lemma FindUniqueSlug(posts: seq<Post>, slug: string, k: nat)
    requires forall i, j :: 0 <= i < j < |posts| ==> posts[i].slug != posts[j].slug
    requires k < |posts| && posts[k].slug == slug
    ensures FindBySlug(posts, slug) == Some(posts[k])
  {
    var r := FindBySlug(posts, slug);
    var i :| 0 <= i < |posts| && posts[i] == r.value && posts[i].slug == slug &&
             forall j :: 0 <= j < i ==> posts[j].slug != slug;
  }

  // ------------------------------------------------------------- formatting

  /**
   * One line of content, classified by its leading characters in a fixed
   * order: headings, code fence, list item, blank, paragraph. Heading and
   * list markers are removed with `replace`, which drops the first match.
   */
  function Classify(line: string): Block
  {
    if StartsWith(line, "# ") then H1(ReplaceFirst(line, "# ", ""))
    else if StartsWith(line, "## ") then H2(ReplaceFirst(line, "## ", ""))
    else if StartsWith(line, "### ") then H3(ReplaceFirst(line, "### ", ""))
    else if StartsWith(line, Fence) then Skip
    else if StartsWith(line, "- ") then Li(ReplaceFirst(line, "- ", ""))
    else if Trim(line) == "" then Br
    else P(line)
  }

  /** `lines.map(classify)`: one block per line, in order. */
  function FormatLines(lines: seq<string>): (r: seq<Block>)
    ensures |r| == |lines|
    ensures forall i :: 0 <= i < |lines| ==> r[i] == Classify(lines[i])
  {
    if lines == [] then []
    else
      var rest := FormatLines(lines[1..]);
      assert forall i :: 1 <= i < |lines| ==> lines[i] == lines[1..][i - 1];
      [Classify(lines[0])] + rest
  }

  /** `formatContent`: split the post body on newlines and classify each line. */
  function FormatContent(content: string): seq<Block>
  {
    FormatLines(Split(content, '\n'))
  }

  /** The detail view for a route parameter: the formatted post, or the fallback. */
  function Render(posts: seq<Post>, slug: string): (v: View)
    ensures v.NotFound? <==> forall i :: 0 <= i < |posts| ==> posts[i].slug != slug
    ensures v.NotFound? ==> v.backLink == BlogListPath
    ensures v.Article? ==> v.post.slug == slug && v.body == FormatContent(v.post.content)
    ensures v.Article? ==> FindBySlug(posts, slug) == Some(v.post)
  {
    match FindBySlug(posts, slug)
    case None => NotFound(BlogListPath)
    case Some(p) => Article(p, FormatContent(p.content))
  }

  // ------------------------------------------------- classification lemmas

  /** Each heading and list marker starts with its own character, so at most one of them matches. */
  lemma MarkersExclusive(line: string)
    ensures StartsWith(line, "## ") ==> !StartsWith(line, "# ")
    ensures StartsWith(line, "### ") ==> !StartsWith(line, "# ") && !StartsWith(line, "## ")
    ensures StartsWith(line, Fence) ==> !StartsWith(line, "# ") && !StartsWith(line, "## ") && !StartsWith(line, "### ")
    ensures StartsWith(line, "- ") ==> !StartsWith(line, "# ") && !StartsWith(line, "## ") && !StartsWith(line, "### ") && !StartsWith(line, Fence)
  {
    if StartsWith(line, "## ") { assert line[1] == "## "[1]; }
    if StartsWith(line, "### ") { assert line[1] == "### "[1] && line[2] == "### "[2]; }
    if StartsWith(line, Fence) { assert line[0] == Fence[0]; }
    if StartsWith(line, "- ") { assert line[0] == "- "[0]; }
  }

  /** A whitespace-only line starts with none of the markers. */
  lemma BlankHasNoMarker(line: string)
    requires AllWhitespace(line)
    ensures !StartsWith(line, "# ") && !StartsWith(line, "## ") && !StartsWith(line, "### ")
    ensures !StartsWith(line, Fence) && !StartsWith(line, "- ")
  {
    if line != [] {
      assert IsWhitespace(line[0]);
    }
  }

  /** Headings: the kind is decided by the marker alone, and the text is the line after it. */
  lemma ClassifyHeading(line: string)
    ensures Classify(line).H1? <==> StartsWith(line, "# ")
    ensures Classify(line).H2? <==> StartsWith(line, "## ")
    ensures Classify(line).H3? <==> StartsWith(line, "### ")
    ensures Classify(line).H1? ==> Classify(line).text == line[2..]
    ensures Classify(line).H2? ==> Classify(line).text == line[3..]
    ensures Classify(line).H3? ==> Classify(line).text == line[4..]
  {
    MarkersExclusive(line);
    if StartsWith(line, "# ") { ReplacePrefix(line, "# ", ""); }
    else if StartsWith(line, "## ") { ReplacePrefix(line, "## ", ""); }
    else if StartsWith(line, "### ") { ReplacePrefix(line, "### ", ""); }
  }

  /** A code-fence line yields nothing, whatever follows the fence. */
  lemma ClassifyFence(line: string)
    ensures Classify(line) == Skip <==> StartsWith(line, Fence)
  {
    MarkersExclusive(line);
  }

  /** A list line yields its text after the two-character marker. */
  lemma ClassifyListItem(line: string)
    ensures Classify(line).Li? <==> StartsWith(line, "- ")
    ensures StartsWith(line, "- ") ==> Classify(line) == Li(line[2..])
  {
    MarkersExclusive(line);
    if StartsWith(line, "- ") { ReplacePrefix(line, "- ", ""); }
  }

  /** Empty and whitespace-only lines, and only those, become breaks. */
  lemma ClassifyBlank(line: string)
    ensures Classify(line) == Br <==> AllWhitespace(line)
  {
    TrimEmptyIffBlank(line);
    if AllWhitespace(line) { BlankHasNoMarker(line); }
  }

  /** A line matching no rule is a paragraph holding the line verbatim. */
  lemma ClassifyParagraph(line: string)
    ensures Classify(line).P? <==>
      !StartsWith(line, "# ") && !StartsWith(line, "## ") && !StartsWith(line, "### ") &&
      !StartsWith(line, Fence) && !StartsWith(line, "- ") && !AllWhitespace(line)
    ensures Classify(line).P? ==> Classify(line) == P(line)
  {
    TrimEmptyIffBlank(line);
  }

  /** The content formatter keeps line structure: one block per line, in order. */
  lemma FormatContentPerLine(content: string)
    ensures |FormatContent(content)| == |Split(content, '\n')|
    ensures forall i :: 0 <= i < |Split(content, '\n')| ==> FormatContent(content)[i] == Classify(Split(content, '\n')[i])
  {
  }

  /**
   * Lines are classified independently of their neighbours: formatting two
   * pieces joined by a newline is formatting each piece and concatenating.
   */
  lemma {:induction false} FormatContentAround(a: string, b: string)
    ensures FormatContent(a + "\n" + b) == FormatContent(a) + FormatContent(b)
  {
    SplitAround(a, b, '\n');
    FormatLinesAppend(Split(a, '\n'), Split(b, '\n'));
  }

  lemma {:induction false} FormatLinesAppend(xs: seq<string>, ys: seq<string>)
    ensures FormatLines(xs + ys) == FormatLines(xs) + FormatLines(ys)
  {
    var l := FormatLines(xs + ys);
    var r := FormatLines(xs) + FormatLines(ys);
    assert |l| == |r|;
    forall i | 0 <= i < |l| ensures l[i] == r[i] {
      if i < |xs| { assert (xs + ys)[i] == xs[i]; } else { assert (xs + ys)[i] == ys[i - |xs|]; }
    }
  }

  /** Formatting a sequence of newline-free lines joined by newlines gives one block per given line. */
  lemma FormatJoinedLines(lines: seq<string>)
    requires |lines| >= 1
    requires forall k :: 0 <= k < |lines| ==> '\n' !in lines[k]
    ensures FormatContent(Join(lines, '\n')) == FormatLines(lines)
  {
    SplitJoin(lines, '\n');
  }

  // ------------------------------------------------------------- examples

  /** Precedence: a heading marker wins over a list marker in its text. */
  lemma HeadingBeforeListItem()
    ensures Classify("# - x") == H1("- x")
  {
    ClassifyHeading("# - x");
  }

  /** Only the leading marker is removed; later occurrences stay. */
  lemma LaterMarkerKept()
    ensures Classify("## a ## b") == H2("a ## b")
  {
    ClassifyHeading("## a ## b");
  }

  /** Without the space after it, a `#` line is a paragraph. */
  lemma MarkerNeedsSpace()
    ensures Classify("#Title") == P("#Title")
  {
    var l := "#Title";
    assert l[0] == '#' && l[1] == 'T';
    assert !StartsWith(l, "# ") && !StartsWith(l, "## ") && !StartsWith(l, "### ") by {
      assert l[..2][1] != "# "[1] && l[..3][1] != "## "[1] && l[..4][1] != "### "[1];
    }
    assert !StartsWith(l, Fence) && !StartsWith(l, "- ") by {
      assert l[..3][0] != Fence[0] && l[..2][0] != "- "[0];
    }
    assert !AllWhitespace(l) by { assert !IsWhitespace(l[0]); }
    ClassifyParagraph(l);
  }

  /** After leading spaces, a `#` line is a paragraph. */
  lemma MarkerMustLead()
    ensures Classify("  # x") == P("  # x")
  {
    var l := "  # x";
    assert l[0] == ' ' && l[2] == '#';
    assert !StartsWith(l, "# ") && !StartsWith(l, "## ") && !StartsWith(l, "### ") by {
      assert l[..2][0] != "# "[0] && l[..3][0] != "## "[0] && l[..4][0] != "### "[0];
    }
    assert !StartsWith(l, Fence) && !StartsWith(l, "- ") by {
      assert l[..3][0] != Fence[0] && l[..2][0] != "- "[0];
    }
    assert !AllWhitespace(l) by { assert !IsWhitespace(l[2]); }
    ClassifyParagraph(l);
  }

  /** The post table of the site: one post, whose body is a heading between two blank lines. */
  const Posts: seq<Post> := [
    Post("1", "Hello World", "hello-world", "A simple hello world blog post.",
         "\n# Hello World\n    ", "2025-06-08", "1 min read", ["Introduction"])
  ]

  /** The lines of the stored post's body. */
  const HelloLines: seq<string> := ["", "# Hello World", "    "]

  lemma HelloContentLines()
    ensures Join(HelloLines, '\n') == Posts[0].content
  {
    assert Join(HelloLines[2..], '\n') == "    ";
    assert Join(HelloLines[1..], '\n') == "# Hello World" + "\n" + "    ";
  }

  lemma HelloLinesFormat()
    ensures FormatLines(HelloLines) == [Br, H1("Hello World"), Br]
  {
    var r := FormatLines(HelloLines);
    assert |r| == 3;
    assert r[0] == Br by {
      assert HelloLines[0] == "";
      ClassifyBlank("");
    }
    assert r[1] == H1("Hello World") by {
      assert HelloLines[1] == "# Hello World";
      HelloHeading();
    }
    assert r[2] == Br by {
      assert HelloLines[2] == "    ";
      HelloTrailingBlank();
    }
  }

  lemma HelloHeading()
    ensures Classify("# Hello World") == H1("Hello World")
  {
    var h := "# Hello World";
    assert h[..2] == "# " && h[2..] == "Hello World";
    ClassifyHeading(h);
  }

  lemma HelloTrailingBlank()
    ensures Classify("    ") == Br
  {
    var w := "    ";
    forall i | 0 <= i < |w| ensures IsWhitespace(w[i]) {
      assert w[i] == ' ';
    }
    ClassifyBlank(w);
  }

  /** The stored post renders as a break, the heading, and a break. */
  lemma HelloWorldRenders()
    ensures Render(Posts, "hello-world") == Article(Posts[0], [Br, H1("Hello World"), Br])
  {
    HelloContentLines();
    HelloLinesFormat();
    FormatJoinedLines(HelloLines);
  }

  /** A body that is a single heading line formats to that heading alone. */
  lemma SingleHeadingBody()
    ensures FormatContent("# Hello World") == [H1("Hello World")]
  {
    var h := "# Hello World";
    SplitPiece(h, '\n');
    assert h[..2] == "# " && h[2..] == "Hello World";
    ClassifyHeading(h);
  }

  /** A slug that no post carries renders the fallback with its link back to the listing. */
  lemma UnknownSlugNotFound(slug: string)
    requires forall i :: 0 <= i < |Posts| ==> Posts[i].slug != slug
    ensures Render(Posts, slug) == NotFound("/blog")
  {
  }
}
