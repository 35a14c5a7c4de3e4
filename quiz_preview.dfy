/** The quiz preview record and its stream formatter (src/util/QuizLoader.hpp). */
module QuizPreviewModel {
  import opened Wrappers


  /** The preview record, with the same defaults: empty texts, both flags off, no categories. */
  datatype QuizPreview = QuizPreview(
    quizName: string,
    includeSongs: bool,
    includeVideos: bool,
    quizDescription: string,
    categories: seq<string>,
    rowCategories: seq<string>)

  const Default: QuizPreview := QuizPreview("", false, false, "", [], [])

  const NamePrefix: string := "Quiz Name: "
  const DescriptionPrefix: string := "Quiz Description: "
  const CategoriesHeader: string := "Quiz Categories:"
  const RowCategoriesHeader: string := "Quiz Row Categories:"
  const SongsPrefix: string := "Quiz Include Songs: "
  const VideosPrefix: string := "Quiz Include Videos: "

  function YesNo(b: bool): string {
    if b then "Yes" else "No"
  }

  /** One line per name, each name behind a tab, in order. */
  function Tabbed(names: seq<string>): (r: seq<string>)
    ensures |r| == |names|
    ensures forall i :: 0 <= i < |r| ==> |r[i]| == |names[i]| + 1 && r[i][0] == '\t' && r[i][1..] == names[i]
  {
    seq(|names|, i requires 0 <= i < |names| => "\t" + names[i])
  }

  /** A header line followed by the tabbed names, or nothing at all for no names. */
  function Section(header: string, names: seq<string>): seq<string> {
    if names == [] then [] else [header] + Tabbed(names)
  }

  /** The four fixed opening lines of a preview. */
  function HeadLines(p: QuizPreview): seq<string> {
    ["", "", NamePrefix + p.quizName, DescriptionPrefix + p.quizDescription]
  }

  /** The two flag lines and the closing empty line. */
  function TailLines(p: QuizPreview): seq<string> {
    [SongsPrefix + YesNo(p.includeSongs), VideosPrefix + YesNo(p.includeVideos), ""]
  }

  /** The preview as a list of lines: two empty lines, name, description, the
      two optional sections, the two flags, and a final empty line. */
  function PreviewLines(p: QuizPreview): seq<string> {
    HeadLines(p) + Section(CategoriesHeader, p.categories) + Section(RowCategoriesHeader, p.rowCategories)
    + TailLines(p)
  }

  /** Every line followed by a newline. */
  function Joined(lines: seq<string>): string {
    if lines == [] then [] else lines[0] + "\n" + Joined(lines[1..])
  }

  /** The text `operator<<` writes for a preview. */
  function Formatted(p: QuizPreview): string {
    Joined(PreviewLines(p))
  }

  lemma {:induction false} JoinedAppend(a: seq<string>, b: seq<string>)
    ensures Joined(a + b) == Joined(a) + Joined(b)
    decreases |a|
  {
    if a == [] {
      assert a + b == b;
    } else {
      assert (a + b)[1..] == a[1..] + b;
      JoinedAppend(a[1..], b);
    }
  }

  lemma JoinedCons(line: string, lines: seq<string>)
    ensures Joined([line] + lines) == line + "\n" + Joined(lines)
  {
    assert ([line] + lines)[1..] == lines;
  }

  lemma JoinedSnoc(lines: seq<string>, line: string)
    ensures Joined(lines + [line]) == Joined(lines) + line + "\n"
  {
    JoinedAppend(lines, [line]);
    assert Joined([line]) == line + "\n" + Joined([]);
  }

  lemma JoinedHead(p: QuizPreview)
    ensures Joined(HeadLines(p)) == "\n\nQuiz Name: " + p.quizName + "\n" + "Quiz Description: " + p.quizDescription + "\n"
  {
    var d := DescriptionPrefix + p.quizDescription;
    var n := NamePrefix + p.quizName;
    JoinedCons(d, []);
    JoinedCons(n, [d]);
    JoinedCons("", [n, d]);
    JoinedCons("", ["", n, d]);
    assert HeadLines(p) == [""] + ["", n, d];
  }

  lemma JoinedTail(p: QuizPreview)
    ensures Joined(TailLines(p)) == (SongsPrefix + YesNo(p.includeSongs) + "\n") +
                                    (VideosPrefix + YesNo(p.includeVideos) + "\n\n")
  {
    var songs := SongsPrefix + YesNo(p.includeSongs);
    var videos := VideosPrefix + YesNo(p.includeVideos);
    JoinedCons("", []);
    JoinedCons(videos, [""]);
    JoinedCons(songs, [videos, ""]);
    assert TailLines(p) == [songs] + [videos, ""];
  }

  lemma PreviewLinesParts(p: QuizPreview)
    ensures Joined(PreviewLines(p)) == Joined(HeadLines(p)) + Joined(Section(CategoriesHeader, p.categories))
                                       + Joined(Section(RowCategoriesHeader, p.rowCategories)) + Joined(TailLines(p))
  {
    var a := HeadLines(p);
    var b := Section(CategoriesHeader, p.categories);
    var c := Section(RowCategoriesHeader, p.rowCategories);
    var d := TailLines(p);
    JoinedAppend(a + b + c, d);
    JoinedAppend(a + b, c);
    JoinedAppend(a, b);
  }

  /** One optional section of `operator<<`: nothing for no names, otherwise the
      header and, in a loop, one tabbed line per name. */
  method AppendSection(out: string, header: string, names: seq<string>) returns (result: string)
    ensures result == out + Joined(Section(header, names))
  {
    result := out;
    if names != [] {
      result := result + header + "\n";
      ghost var lines := [header];
      assert Joined(lines) == header + "\n" + Joined([]);
      var i := 0;
      while i < |names|
        invariant 0 <= i <= |names|
        invariant lines == [header] + Tabbed(names[..i])
        invariant result == out + Joined(lines)
      {
        JoinedSnoc(lines, "\t" + names[i]);
        assert Tabbed(names[..i + 1]) == Tabbed(names[..i]) + ["\t" + names[i]];
        lines := lines + ["\t" + names[i]];
        result := result + "\t" + names[i] + "\n";
        i := i + 1;
      }
      assert names[..i] == names;
    }
  }

  /** `operator<<` as the source writes it: append piece by piece to the
      stream's contents `out`. */
  method AppendPreview(out: string, p: QuizPreview) returns (result: string)
    ensures result == out + Formatted(p)
  {
    ghost var head := Joined(HeadLines(p));
    ghost var categories := Joined(Section(CategoriesHeader, p.categories));
    ghost var rowCategories := Joined(Section(RowCategoriesHeader, p.rowCategories));
    ghost var tail := Joined(TailLines(p));
    JoinedHead(p);
    result := out + "\n\nQuiz Name: " + p.quizName + "\n";
    result := result + "Quiz Description: " + p.quizDescription + "\n";
    assert result == out + head;
    result := AppendSection(result, "Quiz Categories:", p.categories);
    result := AppendSection(result, "Quiz Row Categories:", p.rowCategories);
    ghost var sections := result;
    JoinedTail(p);
    var songs := if p.includeSongs then "Yes" else "No";
    result := result + "Quiz Include Songs: " + songs + "\n";
    Associative4(sections, SongsPrefix, songs, "\n");
    ghost var withSongs := result;
    var videos := if p.includeVideos then "Yes" else "No";
    result := result + "Quiz Include Videos: " + videos + "\n\n";
    Associative4(withSongs, VideosPrefix, videos, "\n\n");
    assert result == sections + tail;
    PreviewLinesParts(p);
    Associative5(out, head, categories, rowCategories, tail);
  }

  lemma Associative4(a: string, b: string, c: string, d: string)
    ensures a + b + c + d == a + (b + c + d)
  {
  }

  lemma Associative5(a: string, b: string, c: string, d: string, e: string)
    ensures a + b + c + d + e == a + (b + c + d + e)
  {
  }

  // ---------------------------------------------------------------------------
  // Reading a preview back: the printed text determines the record.

  predicate NoNewline(s: string) {
    forall i :: 0 <= i < |s| ==> s[i] != '\n'
  }

  /** No field of the record contains a line break. */
  predicate SingleLineFields(p: QuizPreview) {
    && NoNewline(p.quizName)
    && NoNewline(p.quizDescription)
    && (forall i :: 0 <= i < |p.categories| ==> NoNewline(p.categories[i]))
    && (forall i :: 0 <= i < |p.rowCategories| ==> NoNewline(p.rowCategories[i]))
  }

  /** The position of the first newline in `s`, if any. */
  function FirstNewline(s: string): (r: Option<nat>)
    ensures r.Some? ==> r.value < |s| && s[r.value] == '\n' && NoNewline(s[..r.value])
    ensures r.None? ==> NoNewline(s)
  {
    if s == [] then None
    else if s[0] == '\n' then Some(0)
    else match FirstNewline(s[1..])
      case None => None
      case Some(k) =>
        assert s[..k + 1] == [s[0]] + s[1..][..k];
        Some(k + 1)
  }

  /** Splits text into its newline-terminated lines; None if the text does not end with a newline. */
  function SplitLines(s: string): Option<seq<string>>
    decreases |s|
  {
    if s == [] then Some([])
    else match FirstNewline(s)
      case None => None
      case Some(k) =>
        match SplitLines(s[k + 1..])
        case None => None
        case Some(rest) => Some([s[..k]] + rest)
  }

  lemma {:induction false} FirstNewlineOfLine(line: string, rest: string)
    requires NoNewline(line)
    ensures FirstNewline(line + "\n" + rest) == Some(|line|)
    decreases |line|
  {
    var s := line + "\n" + rest;
    if line != [] {
      assert s[1..] == line[1..] + "\n" + rest;
      FirstNewlineOfLine(line[1..], rest);
    }
  }

  lemma {:induction false} SplitJoined(lines: seq<string>)
    requires forall i :: 0 <= i < |lines| ==> NoNewline(lines[i])
    ensures SplitLines(Joined(lines)) == Some(lines)
    decreases |lines|
  {
    if lines != [] {
      var s := Joined(lines);
      var rest := Joined(lines[1..]);
      assert s == lines[0] + "\n" + rest;
      FirstNewlineOfLine(lines[0], rest);
      assert s[|lines[0]| + 1..] == rest;
      assert s[..|lines[0]|] == lines[0];
      SplitJoined(lines[1..]);
      assert [lines[0]] + lines[1..] == lines;
    }
  }

  predicate HasPrefix(prefix: string, s: string) {
    |prefix| <= |s| && s[..|prefix|] == prefix
  }

  /** The leading tab-indented lines without their tabs, and the lines after them. */
  function TakeTabbed(lines: seq<string>): (r: (seq<string>, seq<string>))
    ensures |r.1| <= |lines|
  {
    if lines == [] || lines[0] == [] || lines[0][0] != '\t' then ([], lines)
    else
      var (names, rest) := TakeTabbed(lines[1..]);
      ([lines[0][1..]] + names, rest)
  }

  /** An optional section: its names and the lines after it. */
  function ParseSection(header: string, lines: seq<string>): (r: (seq<string>, seq<string>))
    ensures |r.1| <= |lines|
  {
    if lines != [] && lines[0] == header then TakeTabbed(lines[1..]) else ([], lines)
  }

  function ParseFlag(prefix: string, line: string): Option<bool> {
    if line == prefix + "Yes" then Some(true)
    else if line == prefix + "No" then Some(false)
    else None
  }

  /** The two flag lines and the closing empty line, read back. */
  function ParseTail(tail: seq<string>): Option<(bool, bool)> {
    if |tail| != 3 || tail[2] != "" then None
    else match (ParseFlag(SongsPrefix, tail[0]), ParseFlag(VideosPrefix, tail[1]))
      case (Some(songs), Some(videos)) => Some((songs, videos))
      case _ => None
  }

  /** Everything after the description line: the optional sections and the tail. */
  function ParseBody(name: string, description: string, lines: seq<string>): Option<QuizPreview> {
    var (categories, afterCategories) := ParseSection(CategoriesHeader, lines);
    var (rowCategories, tail) := ParseSection(RowCategoriesHeader, afterCategories);
    match ParseTail(tail)
    case None => None
    case Some((songs, videos)) => Some(QuizPreview(name, songs, videos, description, categories, rowCategories))
  }

  function ParseLines(lines: seq<string>): Option<QuizPreview> {
    if |lines| < 4 || lines[0] != "" || lines[1] != "" ||
       !HasPrefix(NamePrefix, lines[2]) || !HasPrefix(DescriptionPrefix, lines[3]) then None
    else ParseBody(lines[2][|NamePrefix|..], lines[3][|DescriptionPrefix|..], lines[4..])
  }

  /** Reads printed preview text back into a record. */
  function ParsePreview(s: string): Option<QuizPreview> {
    match SplitLines(s)
    case None => None
    case Some(lines) => ParseLines(lines)
  }

  lemma {:induction false} TakeTabbedOfTabbed(names: seq<string>, rest: seq<string>)
    requires rest == [] || rest[0] == [] || rest[0][0] != '\t'
    ensures TakeTabbed(Tabbed(names) + rest) == (names, rest)
    decreases |names|
  {
    var lines := Tabbed(names) + rest;
    if names == [] {
      assert lines == rest;
    } else {
      assert lines[0] == "\t" + names[0];
      assert lines[1..] == Tabbed(names[1..]) + rest by {
        assert Tabbed(names)[1..] == Tabbed(names[1..]);
      }
      TakeTabbedOfTabbed(names[1..], rest);
      assert [names[0]] + names[1..] == names;
    }
  }

  lemma ParseSectionOfSection(header: string, names: seq<string>, rest: seq<string>)
    requires header != [] && header[0] != '\t'
    requires rest == [] || rest[0] != header
    requires rest == [] || rest[0] == [] || rest[0][0] != '\t'
    ensures ParseSection(header, Section(header, names) + rest) == (names, rest)
  {
    var lines := Section(header, names) + rest;
    if names == [] {
      assert lines == rest;
    } else {
      assert lines == [header] + (Tabbed(names) + rest);
      assert lines[0] == header;
      assert lines[1..] == Tabbed(names) + rest;
      TakeTabbedOfTabbed(names, rest);
    }
  }

  predicate AllSingleLine(lines: seq<string>) {
    forall i :: 0 <= i < |lines| ==> NoNewline(lines[i])
  }

  lemma SectionSingleLine(header: string, names: seq<string>)
    requires NoNewline(header) && AllSingleLine(names)
    ensures AllSingleLine(Section(header, names))
  {
    if names != [] {
      var t := Tabbed(names);
      forall i | 0 <= i < |t| ensures NoNewline(t[i]) {
        assert t[i] == "\t" + names[i];
      }
    }
  }

  lemma PreviewLinesSingleLine(p: QuizPreview)
    requires SingleLineFields(p)
    ensures AllSingleLine(PreviewLines(p))
  {
    var a := HeadLines(p);
    var b := Section(CategoriesHeader, p.categories);
    var c := Section(RowCategoriesHeader, p.rowCategories);
    var d := TailLines(p);
    assert AllSingleLine(a) by {
      assert a[2] == NamePrefix + p.quizName;
      assert a[3] == DescriptionPrefix + p.quizDescription;
    }
    SectionSingleLine(CategoriesHeader, p.categories);
    SectionSingleLine(RowCategoriesHeader, p.rowCategories);
    assert AllSingleLine(d);
    assert PreviewLines(p) == a + b + c + d;
  }

  lemma ParseTailOfTailLines(p: QuizPreview)
    ensures ParseTail(TailLines(p)) == Some((p.includeSongs, p.includeVideos))
  {
    var t := TailLines(p);
    assert ParseFlag(SongsPrefix, t[0]) == Some(p.includeSongs) by {
      if !p.includeSongs {
        assert t[0][|SongsPrefix|] != (SongsPrefix + "Yes")[|SongsPrefix|];
      }
    }
    assert ParseFlag(VideosPrefix, t[1]) == Some(p.includeVideos) by {
      if !p.includeVideos {
        assert t[1][|VideosPrefix|] != (VideosPrefix + "Yes")[|VideosPrefix|];
      }
    }
  }

  lemma ParseBodyOfSections(p: QuizPreview)
    ensures ParseBody(p.quizName, p.quizDescription,
                      Section(CategoriesHeader, p.categories) + Section(RowCategoriesHeader, p.rowCategories)
                      + TailLines(p)) == Some(p)
  {
    var tail := TailLines(p);
    var rowPart := Section(RowCategoriesHeader, p.rowCategories) + tail;
    assert Section(CategoriesHeader, p.categories) + Section(RowCategoriesHeader, p.rowCategories) + tail
           == Section(CategoriesHeader, p.categories) + rowPart;
    ParseSectionOfSection(RowCategoriesHeader, p.rowCategories, tail);
    assert rowPart[0] != CategoriesHeader by {
      if p.rowCategories == [] {
        assert |rowPart[0]| != |CategoriesHeader|;
      } else {
        assert rowPart[0][5] != CategoriesHeader[5];
      }
    }
    ParseSectionOfSection(CategoriesHeader, p.categories, rowPart);
    ParseTailOfTailLines(p);
  }

  /** The line list of a record reads back as that record. */
  lemma ParseLinesOfPreviewLines(p: QuizPreview)
    ensures ParseLines(PreviewLines(p)) == Some(p)
  {
    var lines := PreviewLines(p);
    assert lines[2] == NamePrefix + p.quizName && lines[2][|NamePrefix|..] == p.quizName;
    assert lines[3] == DescriptionPrefix + p.quizDescription && lines[3][|DescriptionPrefix|..] == p.quizDescription;
    assert lines[4..] == Section(CategoriesHeader, p.categories) + Section(RowCategoriesHeader, p.rowCategories)
                         + TailLines(p);
    ParseBodyOfSections(p);
  }

  /** Round trip: the printed preview of a record whose fields are single lines reads back as that record. */
  lemma ParseFormatted(p: QuizPreview)
    requires SingleLineFields(p)
    ensures ParsePreview(Formatted(p)) == Some(p)
  {
    var lines := PreviewLines(p);
    PreviewLinesSingleLine(p);
    SplitJoined(lines);
    assert SplitLines(Formatted(p)) == Some(lines);
    ParseLinesOfPreviewLines(p);
  }

  /** The categories header line is printed exactly when there are categories,
      and the line after the description is then that header. */
  lemma CategoriesHeaderIffNonEmpty(p: QuizPreview)
    ensures PreviewLines(p)[4] == CategoriesHeader <==> p.categories != []
  {
    var lines := PreviewLines(p);
    if p.categories == [] {
      if p.rowCategories == [] {
        assert lines[4] == SongsPrefix + YesNo(p.includeSongs);
        assert |lines[4]| > |CategoriesHeader|;
      } else {
        assert lines[4] == RowCategoriesHeader;
        assert lines[4][5] != CategoriesHeader[5];
      }
    }
  }

  /** The row-categories header line follows the categories section exactly when there are row categories. */
  lemma RowCategoriesHeaderIffNonEmpty(p: QuizPreview)
    ensures var k := 4 + |Section(CategoriesHeader, p.categories)|;
            k < |PreviewLines(p)| && (PreviewLines(p)[k] == RowCategoriesHeader <==> p.rowCategories != [])
  {
    var lines := PreviewLines(p);
    var k := 4 + |Section(CategoriesHeader, p.categories)|;
    assert lines[..k] == ["", "", NamePrefix + p.quizName, DescriptionPrefix + p.quizDescription]
                         + Section(CategoriesHeader, p.categories);
    if p.rowCategories == [] {
      assert lines[k] == SongsPrefix + YesNo(p.includeSongs);
      assert lines[k][5] != RowCategoriesHeader[5];
    } else {
      assert lines[k] == RowCategoriesHeader;
    }
  }

  /** The text opens with the name and description lines and closes with the
      two flag lines and an empty line; the flags read "Yes" exactly when set. */
  lemma FormattedFrame(p: QuizPreview)
    ensures var s := Formatted(p);
            var head := "\n\nQuiz Name: " + p.quizName + "\n" + "Quiz Description: " + p.quizDescription + "\n";
            var tail := (SongsPrefix + YesNo(p.includeSongs) + "\n") + (VideosPrefix + YesNo(p.includeVideos) + "\n\n");
            |head| + |tail| <= |s| && s[..|head|] == head && s[|s| - |tail|..] == tail
  {
    var h := Joined(HeadLines(p));
    var c := Joined(Section(CategoriesHeader, p.categories));
    var r := Joined(Section(RowCategoriesHeader, p.rowCategories));
    var t := Joined(TailLines(p));
    PreviewLinesParts(p);
    JoinedHead(p);
    JoinedTail(p);
    var s := Formatted(p);
    Associative4(h, c, r, t);
    assert s == h + (c + r + t);
    assert s[..|h|] == h;
    assert s == (h + c + r) + t;
    assert s[|s| - |t|..] == t;
  }

  /** The default preview prints no sections and two "No" flags. */
  lemma DefaultFormatted()
    ensures Formatted(Default) == "\n\nQuiz Name: \nQuiz Description: \n" +
                                  "Quiz Include Songs: No\nQuiz Include Videos: No\n\n"
  {
    PreviewLinesParts(Default);
    JoinedHead(Default);
    JoinedTail(Default);
    assert Section(CategoriesHeader, []) == [] && Joined([]) == [];
    assert Formatted(Default) == Joined(HeadLines(Default)) + Joined(TailLines(Default));
    assert Joined(HeadLines(Default)) == "\n\nQuiz Name: \nQuiz Description: \n";
    assert Joined(TailLines(Default)) == "Quiz Include Songs: No\n" + "Quiz Include Videos: No\n\n";
  }
}
