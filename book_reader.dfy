/**
 * The picture-book reader: a book is looked up in a fixed catalogue by section and id,
 * then read page by page by hand or with an auto-play timer that turns a page every
 * three seconds and stops on the last one.
 */
module BookReader {
  import opened Wrappers

  /** One page of a book: its picture and its line of text. */
  datatype BookPage = BookPage(image: string, text: string)

  /** State of auto-play after a timer tick: the page shown and whether the timer still runs. */
  datatype AutoPlay = AutoPlay(page: int, playing: bool)

  /** The six pages of the public-domain book 1 (Little Red Riding Hood). */
  const PublicBookOne: seq<BookPage> := [
    BookPage("/images/books/public/hongmaozi/page1.jpg", "从前，有一个可爱的小女孩，大家都叫她小红帽。"),
    BookPage("/images/books/public/hongmaozi/page2.jpg", "一天，妈妈让小红帽给生病的奶奶送一些食物。"),
    BookPage("/images/books/public/hongmaozi/page3.jpg", "小红帽走在森林里，遇到了大灰狼。"),
    BookPage("/images/books/public/hongmaozi/page4.jpg", "大灰狼先到了奶奶家，把奶奶藏了起来。"),
    BookPage("/images/books/public/hongmaozi/page5.jpg", "小红帽到了奶奶家，发现\"奶奶\"有些奇怪。"),
    BookPage("/images/books/public/hongmaozi/page6.jpg", "猎人及时赶到，救出了小红帽和奶奶。")
  ]

  /** The five pages of the original book 1 (Xiaoduo's adventure). */
  const OriginalBookOne: seq<BookPage> := [
    BookPage("/images/books/original/xiaoduo/page1.jpg", "小朵是一个勇敢的小女孩，她喜欢探索未知的世界。"),
    BookPage("/images/books/original/xiaoduo/page2.jpg", "一天，小朵发现了一个神秘的魔法门。"),
    BookPage("/images/books/original/xiaoduo/page3.jpg", "小朵推开门，来到了一个充满神奇生物的世界。"),
    BookPage("/images/books/original/xiaoduo/page4.jpg", "在这个世界里，小朵遇到了很多新朋友。"),
    BookPage("/images/books/original/xiaoduo/page5.jpg", "小朵帮助朋友们解决了困难，成为了英雄。")
  ]

  /** The lookup in `loadBookContent`: `bookContent[section][bookId]`, absent for any other pair. */
  function CatalogueLookup(bookId: string, section: string): (pages: Option<seq<BookPage>>)
  {
    if section == "public" && bookId == "1" then Some(PublicBookOne)
    else if section == "original" && bookId == "1" then Some(OriginalBookOne)
    else None
  }

  /**
   * Exactly two books exist, one per section and both with id "1", of six and five
   * pages; every other section, "custom" included, has no book at all.
   */
  lemma CatalogueContents(bookId: string, section: string)
    ensures CatalogueLookup(bookId, section).Some? <==> bookId == "1" && (section == "public" || section == "original")
    ensures section == "public" && bookId == "1" ==> |CatalogueLookup(bookId, section).value| == 6
    ensures section == "original" && bookId == "1" ==> |CatalogueLookup(bookId, section).value| == 5
    ensures CatalogueLookup(bookId, "custom") == None
  {
  }

  /** `prevPage`: one page back, never before the first. */
  function PrevPage(current: int): (p: int)
    ensures current > 0 ==> p == current - 1
    ensures current <= 0 ==> p == current
  {
    if current > 0 then current - 1 else current
  }

  /** `nextPage`: one page forward, never past the last. */
  function NextPage(current: int, totalPages: int): (p: int)
    ensures current < totalPages - 1 ==> p == current + 1
    ensures current >= totalPages - 1 ==> p == current
  {
    if current < totalPages - 1 then current + 1 else current
  }

  /** Both buttons keep an in-range page in range, and each undoes the other away from the ends. */
  lemma PageTurnsInverse(current: int, totalPages: int)
    requires 0 <= current < totalPages
    ensures 0 <= PrevPage(current) < totalPages && 0 <= NextPage(current, totalPages) < totalPages
    ensures current < totalPages - 1 ==> PrevPage(NextPage(current, totalPages)) == current
    ensures current > 0 ==> NextPage(PrevPage(current), totalPages) == current
  {
  }

  /** One auto-play tick: turn the page, or stop the timer on the last page. */
  function AutoPlayTick(current: int, totalPages: int): AutoPlay
  {
    if current < totalPages - 1 then AutoPlay(current + 1, true) else AutoPlay(current, false)
  }

  /** The auto-play state after `ticks` timer ticks; a stopped timer fires no more. */
  function RunAutoPlay(current: int, totalPages: int, ticks: nat): AutoPlay
  {
    if ticks == 0 then AutoPlay(current, true)
    else
      var s := RunAutoPlay(current, totalPages, ticks - 1);
      if s.playing then AutoPlayTick(s.page, totalPages) else s
  }

  /** Before the last page, every tick turns exactly one page. */
  lemma {:induction false} RunAutoPlayAdvances(current: int, totalPages: int, ticks: nat)
    requires current + ticks <= totalPages - 1
    ensures RunAutoPlay(current, totalPages, ticks) == AutoPlay(current + ticks, true)
  {
    if ticks > 0 {
      RunAutoPlayAdvances(current, totalPages, ticks - 1);
    }
  }

  /**
   * Started on any page of a book, auto-play shows every following page in turn,
   * reaches the last page, and stops on the next tick while staying there.
   */
  lemma AutoPlayReachesLastPage(current: int, totalPages: int)
    requires 0 <= current < totalPages
    ensures RunAutoPlay(current, totalPages, totalPages - 1 - current) == AutoPlay(totalPages - 1, true)
    ensures RunAutoPlay(current, totalPages, totalPages - current) == AutoPlay(totalPages - 1, false)
  {
    RunAutoPlayAdvances(current, totalPages, totalPages - 1 - current);
  }

  /** The reader page's state. */
  class BookReaderPage {
    var pages: seq<BookPage>
    var currentPage: int
    var totalPages: int
    var autoPlaying: bool
    /** Whether an auto-play interval is registered (`autoPlayTimer` non-null). */
    var autoPlayTimer: bool
    /** The load failed and the page will navigate back. */
    var leaving: bool

    ghost predicate Valid()
      reads this
    {
      && totalPages == |pages|
      && 0 <= currentPage && (currentPage < totalPages || currentPage == 0)
      && (autoPlaying <==> autoPlayTimer)
    }

    /** The page before its book is loaded. */
    constructor ()
      ensures Valid()
      ensures pages == [] && totalPages == 0 && currentPage == 0 && !autoPlaying && !leaving
    {
      pages, totalPages, currentPage := [], 0, 0;
      autoPlaying, autoPlayTimer, leaving := false, false, false;
    }

    /**
     * `loadBookContent`, run once from `onLoad`: a catalogued book replaces the pages and
     * their count; a missing one leaves both unchanged and sends the reader back.
     */
    method LoadBookContent(bookId: string, section: string)
      requires Valid() && currentPage == 0
      modifies this`pages, this`totalPages, this`leaving
      ensures Valid()
      ensures CatalogueLookup(bookId, section).Some? ==>
        pages == CatalogueLookup(bookId, section).value && totalPages == |pages| && leaving == old(leaving)
      ensures CatalogueLookup(bookId, section).None? ==>
        pages == old(pages) && totalPages == old(totalPages) && leaving
    {
      match CatalogueLookup(bookId, section) {
        case Some(book) =>
          pages, totalPages := book, |book|;
        case None =>
          leaving := true;
      }
    }

    /** `onPageChange`: the swiper reports the page now shown. */
    method OnPageChange(current: int)
      requires Valid() && 0 <= current < totalPages
      modifies this`currentPage
      ensures Valid() && currentPage == current
    {
      currentPage := current;
    }

    /** `prevPage`. */
    method PrevPageButton()
      requires Valid()
      modifies this`currentPage
      ensures Valid() && currentPage == PrevPage(old(currentPage))
    {
      if currentPage > 0 {
        currentPage := currentPage - 1;
      }
    }

    /** `nextPage`. */
    method NextPageButton()
      requires Valid()
      modifies this`currentPage
      ensures Valid() && currentPage == NextPage(old(currentPage), totalPages)
    {
      if currentPage < totalPages - 1 {
        currentPage := currentPage + 1;
      }
    }

    /** `toggleAutoPlay`: stop a running auto-play, or start the timer. */
    method ToggleAutoPlay()
      requires Valid()
      modifies this`autoPlaying, this`autoPlayTimer
      ensures Valid() && autoPlaying == !old(autoPlaying)
    {
      if autoPlaying {
        autoPlaying, autoPlayTimer := false, false;
      } else {
        autoPlaying, autoPlayTimer := true, true;
      }
    }

    /** One firing of the auto-play timer. */
    method OnAutoPlayTick()
      requires Valid() && autoPlaying
      modifies this`currentPage, this`autoPlaying, this`autoPlayTimer
      ensures Valid()
      ensures AutoPlay(currentPage, autoPlaying) == AutoPlayTick(old(currentPage), totalPages)
    {
      if currentPage < totalPages - 1 {
        currentPage := currentPage + 1;
      } else {
        autoPlaying, autoPlayTimer := false, false;
      }
    }
  }
}
