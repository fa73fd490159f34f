/**
 * The custom picture book: pick a template, fill each of its photo slots, then a
 * simulated generation (progress +10 every 300 ms) assembles a book with one page per
 * photo, which can be opened in the reader.
 */
module CustomBook {
  import opened Wrappers
  import BookReader

  /** A book template: its photo slot count decides how many photos the book needs. */
  datatype Template = Template(id: nat, name: string, preview: string, photoCount: nat)

  /** A page of a generated book: the slot's photo (`null` when empty) and its caption. */
  datatype CustomPage = CustomPage(image: Option<string>, text: string)

  /** The generated book. */
  datatype ResultBook = ResultBook(id: nat, title: string, cover: Option<string>, pages: seq<CustomPage>)

  /** Where `previewBook` navigates: the reader with a book id, a section and a title. */
  datatype ReaderRoute = ReaderRoute(bookId: string, section: string, title: string)

  /** The three templates on offer. */
  const Templates: seq<Template> := [
    Template(1, "成长日记", "/images/templates/chengzhang.jpg", 5),
    Template(2, "生日纪念", "/images/templates/shengri.jpg", 8),
    Template(3, "旅行回忆", "/images/templates/lvxing.jpg", 6)
  ]

  /** Progress added per generation tick, and the value at which generation ends. */
  const ProgressStep: int := 10
  const ProgressDone: int := 100

  /** The number of photo slots a template opens: its count, or 5 when the count is 0. */
  function SlotCount(t: Template): (n: nat)
    ensures n > 0
    ensures t.photoCount > 0 ==> n == t.photoCount
    ensures t.photoCount == 0 ==> n == 5
  {
    if t.photoCount == 0 then 5 else t.photoCount
  }

  /** The offered templates need 5, 8 and 6 photos. */
  lemma TemplateSlots()
    ensures |Templates| == 3
    ensures SlotCount(Templates[0]) == 5 && SlotCount(Templates[1]) == 8 && SlotCount(Templates[2]) == 6
  {
  }

  /** The decimal digit for 0..9. */
  function Digit(d: nat): (c: char)
    requires d < 10
    ensures '0' <= c <= '9' && (c - '0') as int == d
  {
    ['0', '1', '2', '3', '4', '5', '6', '7', '8', '9'][d]
  }

  predicate IsDigits(s: string)
  {
    forall i :: 0 <= i < |s| ==> '0' <= s[i] <= '9'
  }

  /** A natural number in decimal, as JavaScript prints it in a template literal. */
  function DecimalDigits(n: nat): (s: string)
    ensures |s| >= 1 && IsDigits(s)
    decreases n
  {
    if n < 10 then [Digit(n)] else DecimalDigits(n / 10) + [Digit(n % 10)]
  }

  /** The value of a string of decimal digits. */
  function DecimalValue(s: string): nat
    requires IsDigits(s)
  {
    if s == [] then 0 else DecimalValue(s[..|s| - 1]) * 10 + (s[|s| - 1] - '0') as int
  }

  /** Printing in decimal loses nothing: reading the digits back gives the number. */
  lemma {:induction false} DecimalRoundTrip(n: nat)
    ensures DecimalValue(DecimalDigits(n)) == n
  {
    var s := DecimalDigits(n);
    if n >= 10 {
      DecimalRoundTrip(n / 10);
      assert s[..|s| - 1] == DecimalDigits(n / 10);
    } else {
      assert s[..|s| - 1] == [];
    }
  }

  /** Distinct numbers print differently. */
  lemma DecimalDigitsInjective(m: nat, n: nat)
    requires DecimalDigits(m) == DecimalDigits(n)
    ensures m == n
  {
    DecimalRoundTrip(m);
    DecimalRoundTrip(n);
  }

  /** The caption of the page at `index`: "第" + (index + 1) + "页". */
  function PageLabel(index: nat): string
  {
    "第" + DecimalDigits(index + 1) + "页"
  }

  /** Different pages get different captions. */
  lemma PageLabelsDistinct(i: nat, j: nat)
    requires i != j
    ensures PageLabel(i) != PageLabel(j)
  {
    if PageLabel(i) == PageLabel(j) {
      var a, b := DecimalDigits(i + 1), DecimalDigits(j + 1);
      assert |a| == |PageLabel(i)| - 2 == |b|;
      assert a == PageLabel(i)[1..|a| + 1];
      assert b == PageLabel(j)[1..|b| + 1];
      DecimalDigitsInjective(i + 1, j + 1);
    }
  }

  /** The book that generation assembles: titled after the template, one page per slot. */
  function Assemble(id: nat, title: string, photos: seq<Option<string>>): (book: ResultBook)
    ensures book.id == id && book.title == title
    ensures |book.pages| == |photos|
    ensures forall i :: 0 <= i < |photos| ==> book.pages[i] == CustomPage(photos[i], PageLabel(i))
    ensures |photos| > 0 ==> book.cover == photos[0]
    ensures |photos| == 0 ==> book.cover == None
  {
    ResultBook(id, title, if |photos| > 0 then photos[0] else None,
               seq(|photos|, i requires 0 <= i < |photos| => CustomPage(photos[i], PageLabel(i))))
  }

  /** Every slot holds a photo. */
  predicate AllFilled(photos: seq<Option<string>>)
  {
    forall i :: 0 <= i < |photos| ==> photos[i].Some?
  }

  /** A book assembled from filled slots has a photo on every page and on the cover. */
  lemma FilledBookHasEveryPhoto(id: nat, title: string, photos: seq<Option<string>>)
    requires |photos| > 0 && AllFilled(photos)
    ensures var book := Assemble(id, title, photos);
      && book.cover.Some?
      && forall i :: 0 <= i < |book.pages| ==> book.pages[i].image.Some? && book.pages[i].image == photos[i]
  {
  }

  /** The generation timer's state: the progress counter and whether the interval still runs. */
  datatype Generation = Generation(progress: int, running: bool)

  /** The state `generateBook` starts the interval in. */
  const GenerationStart: Generation := Generation(0, true)

  /** One firing of the interval: +10, and the interval is cleared once 100 is reached; a cleared one fires no more. */
  function GenerationStep(g: Generation): Generation
  {
    if !g.running then g
    else Generation(g.progress + ProgressStep, g.progress + ProgressStep < ProgressDone)
  }

  /** The state after `ticks` firings from the start. */
  function RunGeneration(ticks: nat): Generation
  {
    if ticks == 0 then GenerationStart else GenerationStep(RunGeneration(ticks - 1))
  }

  /**
   * Generation runs through nine ticks, showing 10, 20, ..., 90, finishes on the tenth
   * at exactly 100 with the interval cleared, and stays there.
   */
  lemma {:induction false} GenerationTakesTenTicks(ticks: nat)
    ensures ticks < 10 ==> RunGeneration(ticks) == Generation(ProgressStep * ticks, true)
    ensures ticks >= 10 ==> RunGeneration(ticks) == Generation(ProgressDone, false)
  {
    if ticks > 0 {
      GenerationTakesTenTicks(ticks - 1);
    }
  }

  /** The route `previewBook` opens: section "custom" with the decimal id and the title. */
  function PreviewRoute(book: ResultBook): ReaderRoute
  {
    ReaderRoute(DecimalDigits(book.id), "custom", book.title)
  }

  /**
   * The reader cannot open a generated book: its catalogue has no "custom" section, so
   * the preview always lands on the reader's load-failure path.
   */
  lemma PreviewedBookNotInCatalogue(book: ResultBook)
    ensures BookReader.CatalogueLookup(PreviewRoute(book).bookId, PreviewRoute(book).section) == None
  {
    BookReader.CatalogueContents(PreviewRoute(book).bookId, PreviewRoute(book).section);
  }

  /** The page's state. */
  class CustomBookPage {
    var step: int
    var templates: seq<Template>
    var selectedTemplate: Option<Template>
    var photos: array<Option<string>>
    var progress: int
    var resultBook: Option<ResultBook>
    /** Whether the generation interval is registered. */
    var generating: bool
    /** The generation interval's own counter (a local of `generateBook` its closure updates). */
    var generationProgress: int

    ghost predicate Valid()
      reads this
    {
      && 1 <= step <= 3
      && (step >= 2 ==> selectedTemplate.Some?)
      && (generating ==> selectedTemplate.Some? && 0 <= generationProgress < ProgressDone)
    }

    /** `onLoad` with `loadTemplates`. */
    constructor ()
      ensures Valid()
      ensures step == 1 && templates == Templates && selectedTemplate == None
      ensures photos.Length == 0 && progress == 0 && resultBook == None && !generating
    {
      step, templates, selectedTemplate := 1, Templates, None;
      photos := new Option<string>[0];
      progress, resultBook, generating, generationProgress := 0, None, false, 0;
    }

    /** `selectTemplate`: a fresh set of empty slots for the template, and step 2. */
    method SelectTemplate(template: Template)
      requires Valid()
      modifies this`selectedTemplate, this`photos, this`step
      ensures Valid()
      ensures selectedTemplate == Some(template) && step == 2
      ensures fresh(photos) && photos.Length == SlotCount(template)
      ensures forall i :: 0 <= i < photos.Length ==> photos[i] == None
    {
      selectedTemplate := Some(template);
      photos := new Option<string>[SlotCount(template)](_ => None);
      step := 2;
    }

    /** `choosePhoto` succeeded: the chosen file fills slot `index` in place. */
    method ChoosePhoto(index: int, tempFilePath: string)
      requires 0 <= index < photos.Length
      modifies photos
      ensures photos[..] == old(photos[..])[index := Some(tempFilePath)]
    {
      photos[index] := Some(tempFilePath);
    }

    /** `photos.every(photo => photo !== null)`. */
    method AllPhotosUploaded() returns (all: bool)
      ensures all <==> AllFilled(photos[..])
    {
      var i := 0;
      while i < photos.Length
        invariant 0 <= i <= photos.Length
        invariant AllFilled(photos[..i])
      {
        if photos[i].None? {
          assert photos[..][i].None?;
          return false;
        }
        assert photos[..i + 1] == photos[..i] + [photos[i]];
        i := i + 1;
      }
      assert photos[..i] == photos[..];
      return true;
    }

    /**
     * `nextStep`: from step 2 with every slot filled, move to step 3 and start generating;
     * otherwise nothing changes.
     */
    method NextStep() returns (started: bool)
      requires Valid()
      modifies this`step, this`generating, this`generationProgress
      ensures Valid()
      ensures started <==> old(step) == 2 && AllFilled(photos[..])
      ensures started ==> step == 3 && Generation(generationProgress, generating) == GenerationStart
      ensures !started ==> step == old(step) && generating == old(generating) && generationProgress == old(generationProgress)
    {
      started := false;
      if step == 2 {
        var all := AllPhotosUploaded();
        if !all {
          return;
        }
        step := 3;
        generating, generationProgress := true, 0;
        started := true;
      }
    }

    /**
     * One generation tick: progress grows by 10; at 100 the timer stops and the book is
     * assembled from the template name and the slots, with `now` (`Date.now()`) as id.
     */
    method GenerationTick(now: nat)
      requires Valid() && generating
      modifies this`progress, this`generationProgress, this`generating, this`resultBook
      ensures Valid()
      ensures Generation(generationProgress, generating) == GenerationStep(Generation(old(generationProgress), true))
      ensures progress == generationProgress
      ensures !generating ==> resultBook == Some(Assemble(now, selectedTemplate.value.name, photos[..]))
      ensures generating ==> resultBook == old(resultBook)
    {
      generationProgress := generationProgress + ProgressStep;
      progress := generationProgress;
      if generationProgress >= ProgressDone {
        generating := false;
        resultBook := Some(Assemble(now, selectedTemplate.value.name, photos[..]));
      }
    }

    /** `previewBook`: nothing without a book; otherwise the reader route for it. */
    method PreviewBook() returns (route: Option<ReaderRoute>)
      ensures resultBook.None? ==> route == None
      ensures resultBook.Some? ==> route == Some(PreviewRoute(resultBook.value))
    {
      if resultBook.None? {
        return None;
      }
      route := Some(PreviewRoute(resultBook.value));
    }
  }
}
