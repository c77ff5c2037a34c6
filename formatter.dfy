/**
 * The text the news tools return: one bullet line `- <title>` per item,
 * joined by newlines and stripped, or a fixed sentinel for an empty list.
 */
module Formatter {
  import opened Api
  import opened Text

  const NoNewsSentinel := "No news items found."
  const MissingTitleLabel := "No Title"

  /** The title as the f-string shows it: the fallback label when the key is absent, "None" for JSON null. */
  function DisplayedTitle(item: NewsItem): string
  {
    match item.title
    case Missing => MissingTitleLabel
    case JsonNull => "None"
    case Text(t) => t
  }

  /** The line an item becomes. */
  function Bullet(item: NewsItem): string
  {
    "- " + DisplayedTitle(item)
  }

  /** One bullet line per item, in order. */
  function Bullets(items: seq<NewsItem>): (lines: seq<string>)
    ensures |lines| == |items|
    ensures forall i :: 0 <= i < |items| ==> lines[i] == Bullet(items[i])
  {
    seq(|items|, i requires 0 <= i < |items| => Bullet(items[i]))
  }

  /** The text accumulated before stripping: every bullet followed by a newline. */
  function Rendered(items: seq<NewsItem>): string
  {
    if items == [] then ""
    else Rendered(items[..|items| - 1]) + Bullet(items[|items| - 1]) + "\n"
  }

  /** Rendering one more item appends its bullet line. */
  lemma RenderedStep(items: seq<NewsItem>, i: int)
    requires 0 <= i < |items|
    ensures Rendered(items[..i + 1]) == Rendered(items[..i]) + Bullet(items[i]) + "\n"
  {
    assert items[..i + 1][..i] == items[..i];
  }

  /** The value `concatenate_news` returns for `items`. */
  function FormatNews(items: seq<NewsItem>): string
  {
    if items == [] then NoNewsSentinel else Strip(Rendered(items))
  }

  /** A title that `strip()` leaves alone at the end: non-empty, last character not whitespace. */
  predicate EndsCleanly(title: string)
  {
    title != [] && !IsSpace(title[|title| - 1])
  }

  /** The accumulated text is the bullets joined by newlines, plus one final newline. */
  lemma {:induction false} RenderedIsJoinedBullets(items: seq<NewsItem>)
    requires items != []
    ensures Rendered(items) == JoinLines(Bullets(items)) + "\n"
  {
    var n := |items|;
    var init := items[..n - 1];
    if n == 1 {
      assert init == [];
    } else {
      RenderedIsJoinedBullets(init);
      assert Bullets(items) == Bullets(init) + [Bullet(items[n - 1])];
      JoinLinesSnoc(Bullets(init), Bullet(items[n - 1]));
    }
  }

  /**
   * For a non-empty list the result is the bullets joined by newlines, with
   * only trailing whitespace removed (the text always starts with '-').
   */
  lemma FormatNewsIsTrimmedJoin(items: seq<NewsItem>)
    requires items != []
    ensures FormatNews(items) == TrimRight(JoinLines(Bullets(items)))
    ensures FormatNews(items) != [] && FormatNews(items)[0] == '-'
  {
    var joined := JoinLines(Bullets(items));
    RenderedIsJoinedBullets(items);
    assert joined != [] && joined[0] == '-' by {
      JoinStartsWithFirst(Bullets(items));
    }
    StripFromNonSpaceStart(joined + "\n");
    assert (joined + "\n")[..|joined|] == joined;
  }

  /** A join starts with the first character of its first line. */
  lemma JoinStartsWithFirst(lines: seq<string>)
    requires lines != [] && lines[0] != []
    ensures JoinLines(lines) != [] && JoinLines(lines)[0] == lines[0][0]
  {
  }

  /** The sentinel is returned exactly when the list is empty. */
  lemma SentinelIffEmpty(items: seq<NewsItem>)
    ensures FormatNews(items) == NoNewsSentinel <==> items == []
  {
    if items != [] {
      FormatNewsIsTrimmedJoin(items);
      assert NoNewsSentinel[0] == 'N';
    }
  }

  /** When the last title ends cleanly, stripping removes only the final newline. */
  lemma FormatNewsIsJoin(items: seq<NewsItem>)
    requires items != []
    requires EndsCleanly(DisplayedTitle(items[|items| - 1]))
    ensures FormatNews(items) == JoinLines(Bullets(items))
  {
    var lines := Bullets(items);
    var last := DisplayedTitle(items[|items| - 1]);
    assert lines[|lines| - 1] == "- " + last;
    assert lines[|lines| - 1][|lines[|lines| - 1]| - 1] == last[|last| - 1];
    FormatNewsIsTrimmedJoin(items);
    JoinEndsWithLast(lines);
    TrimRightClean(JoinLines(lines));
  }

  /** The lines of the formatted text: the bullets, the last one without trailing whitespace. */
  function OutputLines(items: seq<NewsItem>): (lines: seq<string>)
    requires items != []
    ensures |lines| == |items|
    ensures forall i :: 0 <= i < |items| - 1 ==> lines[i] == Bullet(items[i])
    ensures lines[|items| - 1] == TrimRight(Bullet(items[|items| - 1]))
  {
    Bullets(items)[..|items| - 1] + [TrimRight(Bullet(items[|items| - 1]))]
  }

  /**
   * The result is the bullets joined by newlines, except that the last bullet
   * loses its trailing whitespace; earlier lines are kept whole.
   */
  lemma FormatNewsTrimsLastLine(items: seq<NewsItem>)
    requires items != []
    ensures FormatNews(items) == JoinLines(OutputLines(items))
  {
    var lines := Bullets(items);
    FormatNewsIsTrimmedJoin(items);
    assert lines[|lines| - 1][0] == '-';
    TrimRightJoinLines(lines);
  }

  /**
   * The last line as `strip()` leaves it: "- " and the title without trailing
   * whitespace, or just "-" when the title is blank.
   */
  lemma BulletTrimmed(item: NewsItem)
    ensures !Blank(DisplayedTitle(item)) ==> TrimRight(Bullet(item)) == "- " + TrimRight(DisplayedTitle(item))
    ensures Blank(DisplayedTitle(item)) ==> TrimRight(Bullet(item)) == "-"
  {
    var t := DisplayedTitle(item);
    if Blank(t) {
      assert Blank(" " + t);
      assert Bullet(item) == "-" + (" " + t);
      TrimRightBlankSuffix("-", " " + t);
      TrimRightClean("-");
    } else {
      TrimRightAppend("- ", t);
    }
  }

  /** When no title holds a newline, splitting the result gives back its lines. */
  lemma FormatNewsSplits(items: seq<NewsItem>)
    requires items != []
    requires forall i :: 0 <= i < |items| ==> '\n' !in DisplayedTitle(items[i])
    ensures SplitLines(FormatNews(items)) == OutputLines(items)
  {
    FormatNewsTrimsLastLine(items);
    OutputLinesHaveNoNewline(items);
    SplitJoinLines(OutputLines(items));
  }

  /** Titles without a newline give output lines without a newline. */
  lemma OutputLinesHaveNoNewline(items: seq<NewsItem>)
    requires items != []
    requires forall i :: 0 <= i < |items| ==> '\n' !in DisplayedTitle(items[i])
    ensures forall i :: 0 <= i < |items| ==> '\n' !in OutputLines(items)[i]
  {
    var last := Bullet(items[|items| - 1]);
    var kept := TrimRight(last);
    BulletsHaveNoNewline(items);
    forall k | 0 <= k < |kept| ensures kept[k] != '\n' {
      assert kept[k] == last[k];
    }
  }

  /**
   * A line starts with "- " when its title is not blank, a blank last title
   * leaves just "-", and an item without a title shows "- No Title".
   */
  lemma OutputLineShapes(items: seq<NewsItem>)
    requires items != []
    ensures forall i :: 0 <= i < |items| && !Blank(DisplayedTitle(items[i])) ==> "- " <= OutputLines(items)[i]
    ensures Blank(DisplayedTitle(items[|items| - 1])) ==> OutputLines(items)[|items| - 1] == "-"
    ensures forall i :: 0 <= i < |items| && items[i].title == Missing ==> OutputLines(items)[i] == "- No Title"
  {
    forall i | 0 <= i < |items| && !Blank(DisplayedTitle(items[i])) ensures "- " <= OutputLines(items)[i] {
      OutputLineAt(items, i);
    }
    forall i | 0 <= i < |items| && items[i].title == Missing ensures OutputLines(items)[i] == "- No Title" {
      OutputLineAt(items, i);
    }
    OutputLineAt(items, |items| - 1);
  }

  /** The shape of output line `i`, as `OutputLineShapes` states it for every line. */
  predicate OutputLineShape(items: seq<NewsItem>, i: int)
    requires 0 <= i < |items|
  {
    (!Blank(DisplayedTitle(items[i])) ==> "- " <= OutputLines(items)[i]) &&
    (i == |items| - 1 && Blank(DisplayedTitle(items[i])) ==> OutputLines(items)[i] == "-") &&
    (items[i].title == Missing ==> OutputLines(items)[i] == "- No Title")
  }

  /** One output line: a whole bullet before the last, the trimmed bullet at the end. */
  lemma OutputLineAt(items: seq<NewsItem>, i: int)
    requires 0 <= i < |items|
    ensures OutputLineShape(items, i)
  {
    var item := items[i];
    var t := DisplayedTitle(item);
    if item.title == Missing {
      assert !Blank(t) by {
        assert t[0] == 'N';
      }
      TrimRightClean(t);
    }
    if i < |items| - 1 {
      assert OutputLines(items)[i] == "- " + t;
    } else {
      BulletTrimmed(item);
    }
  }

  /**
   * When no title holds a newline, the result splits into exactly one line per
   * item. Every line but the last is the item's bullet; the last is its bullet
   * without trailing whitespace. A line starts with "- " when its title is not
   * blank, a blank last title leaves just "-", and an item without a title
   * shows "- No Title".
   */
  lemma FormatNewsLines(items: seq<NewsItem>)
    requires items != []
    requires forall i :: 0 <= i < |items| ==> '\n' !in DisplayedTitle(items[i])
    ensures |SplitLines(FormatNews(items))| == |items|
    ensures forall i :: 0 <= i < |items| - 1 ==> SplitLines(FormatNews(items))[i] == Bullet(items[i])
    ensures SplitLines(FormatNews(items))[|items| - 1] == TrimRight(Bullet(items[|items| - 1]))
    ensures forall i :: 0 <= i < |items| && !Blank(DisplayedTitle(items[i])) ==>
              "- " <= SplitLines(FormatNews(items))[i]
    ensures Blank(DisplayedTitle(items[|items| - 1])) ==> SplitLines(FormatNews(items))[|items| - 1] == "-"
    ensures forall i :: 0 <= i < |items| && items[i].title == Missing ==>
              SplitLines(FormatNews(items))[i] == "- No Title"
  {
    FormatNewsSplits(items);
    OutputLineShapes(items);
  }

  /** A single item whose title is blank formats as the lone character "-". */
  lemma BlankTitleAlone(item: NewsItem)
    requires Blank(DisplayedTitle(item))
    ensures FormatNews([item]) == "-"
  {
    FormatNewsTrimsLastLine([item]);
    BulletTrimmed(item);
  }

  /** Every bullet starts with "- "; an item without a title gives "- No Title". */
  lemma BulletShapes(items: seq<NewsItem>)
    ensures forall i :: 0 <= i < |items| ==> Bullets(items)[i][..2] == "- "
    ensures forall i :: 0 <= i < |items| && items[i].title == Missing ==> Bullets(items)[i] == "- No Title"
  {
    forall i | 0 <= i < |items| ensures Bullets(items)[i][..2] == "- " {
      assert Bullets(items)[i] == "- " + DisplayedTitle(items[i]);
    }
  }

  /** Titles without a newline give bullets without a newline. */
  lemma BulletsHaveNoNewline(items: seq<NewsItem>)
    requires forall i :: 0 <= i < |items| ==> '\n' !in DisplayedTitle(items[i])
    ensures forall i :: 0 <= i < |items| ==> '\n' !in Bullets(items)[i]
  {
    forall i | 0 <= i < |items| ensures '\n' !in Bullets(items)[i] {
      BulletHasNoNewline(items[i]);
    }
  }

  /** The "- " prefix adds no newline to a title. */
  lemma BulletHasNoNewline(item: NewsItem)
    requires '\n' !in DisplayedTitle(item)
    ensures '\n' !in Bullet(item)
  {
    var t := DisplayedTitle(item);
    forall k | 0 <= k < |Bullet(item)| ensures Bullet(item)[k] != '\n' {
      if k >= 2 { assert Bullet(item)[k] == t[k - 2]; }
    }
  }

  /** A join ends with the last character of its last line. */
  lemma {:induction false} JoinEndsWithLast(lines: seq<string>)
    requires lines != [] && lines[|lines| - 1] != []
    ensures JoinLines(lines) != [] && JoinLines(lines)[|JoinLines(lines)| - 1] == lines[|lines| - 1][|lines[|lines| - 1]| - 1]
  {
    if |lines| > 1 {
      JoinEndsWithLast(lines[1..]);
    }
  }
}
