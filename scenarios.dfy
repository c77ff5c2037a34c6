/**
 * Concrete runs of the news tools' page loop and formatter over small page
 * sources.
 */
module Scenarios {
  import opened Text
  import opened Pagination
  import opened Api
  import opened Formatter

  /** A news record whose `title` is the string `t`. */
  function Titled(t: string): NewsItem
  {
    NewsItem(Text(t))
  }

  /** Page 1 holds "A" and "B"; every other page is empty. */
  function TwoItemsThenEmpty(page: int): seq<NewsItem>
  {
    if page == 1 then [Titled("A"), Titled("B")] else []
  }

  /** Pages 1, 2 and 3 hold "X", "Y" and "Z". */
  function OneItemPerPage(page: int): seq<NewsItem>
  {
    if page == 1 then [Titled("X")] else if page == 2 then [Titled("Y")] else if page == 3 then [Titled("Z")] else []
  }

  /** The two bullets of "A" and "B", joined. */
  lemma JoinTwo(items: seq<NewsItem>)
    requires items == [Titled("A"), Titled("B")]
    ensures JoinLines(Bullets(items)) == "- A\n- B"
  {
    assert Bullet(items[0]) == "- A";
    assert Bullet(items[1]) == "- B";
    assert Bullets(items) == ["- A", "- B"];
  }

  /** The three bullets of "X", "Y" and "Z", joined. */
  lemma JoinThree(items: seq<NewsItem>)
    requires items == [Titled("X"), Titled("Y"), Titled("Z")]
    ensures JoinLines(Bullets(items)) == "- X\n- Y\n- Z"
  {
    assert Bullet(items[0]) == "- X";
    assert Bullet(items[1]) == "- Y";
    assert Bullet(items[2]) == "- Z";
    assert Bullets(items) == ["- X", "- Y", "- Z"];
    assert JoinLines(["- X", "- Y", "- Z"]) == "- X" + "\n" + JoinLines(["- Y", "- Z"]);
    assert JoinLines(["- Y", "- Z"]) == "- Y" + "\n" + "- Z";
  }

  /** The formatted text of items "A" and "B". */
  lemma FormatTwo(items: seq<NewsItem>)
    requires items == [Titled("A"), Titled("B")]
    ensures FormatNews(items) == "- A\n- B"
  {
    FormatNewsIsJoin(items);
    JoinTwo(items);
  }

  /** The formatted text of items "X", "Y" and "Z". */
  lemma FormatThree(items: seq<NewsItem>)
    requires items == [Titled("X"), Titled("Y"), Titled("Z")]
    ensures FormatNews(items) == "- X\n- Y\n- Z"
  {
    FormatNewsIsJoin(items);
    JoinThree(items);
  }

  /** Asking for two pages when page 2 is empty: two fetches, result "- A\n- B". */
  lemma TwoPagesSecondEmpty()
    ensures Requested(TwoItemsThenEmpty, 2) == [1, 2]
    ensures FormatNews(Paginate(TwoItemsThenEmpty, 2)) == "- A\n- B"
  {
    EarlyStop(TwoItemsThenEmpty, 2, 1);
    assert Range(1, 3) == [1, 2];
    assert Range(1, 2) == [1];
    assert Concat(TwoItemsThenEmpty, [1]) == TwoItemsThenEmpty(1) + Concat(TwoItemsThenEmpty, []);
    FormatTwo(Paginate(TwoItemsThenEmpty, 2));
  }

  /** Asking for three pages that all hold one item: three fetches, result "- X\n- Y\n- Z". */
  lemma ThreeFullPages()
    ensures Requested(OneItemPerPage, 3) == [1, 2, 3]
    ensures FormatNews(Paginate(OneItemPerPage, 3)) == "- X\n- Y\n- Z"
  {
    AllPagesFull(OneItemPerPage, 3);
    assert Range(1, 4) == [1, 2, 3];
    assert Concat(OneItemPerPage, [3]) == OneItemPerPage(3) + Concat(OneItemPerPage, []);
    assert Concat(OneItemPerPage, [2, 3]) == OneItemPerPage(2) + Concat(OneItemPerPage, [3]);
    assert Concat(OneItemPerPage, [1, 2, 3]) == OneItemPerPage(1) + Concat(OneItemPerPage, [2, 3]);
    FormatThree(Paginate(OneItemPerPage, 3));
  }
}
