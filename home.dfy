/** The landing page of src/pages/Home.jsx: the three-slide carousel and
    the six featured tasks with the nearest deadlines, taken from the
    page's built-in list. */
module Home {
  import opened JsText
  import opened Sorting

  /** A carousel slide; only its id and its link are modelled. */
  datatype Slide = Slide(id: int, ctaLink: string)

  /** `slidesData` */
  const Slides: seq<Slide> := [Slide(1, "/browse-tasks"), Slide(2, "/add-task"), Slide(3, "/signup")]

  /** The updater of `nextSlide`. */
  function NextSlide(prev: int): int
  {
    if prev == |Slides| - 1 then 0 else prev + 1
  }

  /** The updater of `prevSlide`. */
  function PrevSlide(prev: int): int
  {
    if prev == 0 then |Slides| - 1 else prev - 1
  }

  /** Within the carousel both steps stay within the carousel, moving one
      place forward or back around the circle. */
  lemma SlideStepsWrap(i: int)
    requires 0 <= i < |Slides|
    ensures 0 <= NextSlide(i) < |Slides| && NextSlide(i) == (i + 1) % |Slides|
    ensures 0 <= PrevSlide(i) < |Slides| && PrevSlide(i) == (i + |Slides| - 1) % |Slides|
    ensures NextSlide(|Slides| - 1) == 0 && PrevSlide(0) == |Slides| - 1
  {
  }

  /** The two steps undo each other, and three steps forward come back. */
  lemma SlideStepsInverse(i: int)
    requires 0 <= i < |Slides|
    ensures PrevSlide(NextSlide(i)) == i && NextSlide(PrevSlide(i)) == i
    ensures NextSlide(NextSlide(NextSlide(i))) == i
  {
  }

  /** A point in time in UTC, as an ISO text `YYYY-MM-DDTHH:MM:SSZ` writes it. */
  datatype Instant = Instant(year: int, month: int, day: int, hour: int, minute: int, second: int)

  /** The number of days from 1970-01-01 to the given date of the
      proleptic Gregorian calendar. */
  function DaysFromCivil(y: int, m: int, d: int): int
  {
    var y1 := if m <= 2 then y - 1 else y;
    var era := y1 / 400;
    var yoe := y1 - era * 400;
    var mp := (m + 9) % 12;
    var doy := (153 * mp + 2) / 5 + d - 1;
    var doe := yoe * 365 + yoe / 4 - yoe / 100 + doy;
    era * 146097 + doe - 719468
  }

  /** `new Date(text).getTime()` for the ISO text of `t`. */
  function Millis(t: Instant): int
  {
    (DaysFromCivil(t.year, t.month, t.day) * 86400 + t.hour * 3600 + t.minute * 60 + t.second) * 1000
  }

  /** The first day of the epoch is day 0, and a day later is 86400000 ms later. */
  lemma MillisCalibration()
    ensures Millis(Instant(1970, 1, 1, 0, 0, 0)) == 0
    ensures Millis(Instant(1970, 1, 2, 0, 0, 0)) == 86400000
    ensures Millis(Instant(2000, 3, 1, 0, 0, 0)) == 951868800000
  {
  }

  /** An entry of `allTasksData`. */
  datatype HomeTask = HomeTask(id: int, title: string, description: string, budget: string,
                               deadline: Instant, category: string)

  /** The comparator `(a, b) => new Date(a.deadline) - new Date(b.deadline)`
      sorts by this key: nearest deadline first. */
  function DeadlineKey(t: HomeTask): int
  {
    Millis(t.deadline)
  }

  function EndOfDay(y: int, m: int, d: int): Instant
  {
    Instant(y, m, d, 23, 59, 59)
  }

  const Task1 := HomeTask(1, "Urgent: Need a Logo Designer", "Looking for a creative logo for a new tech startup.", "$200", EndOfDay(2025, 5, 28), "Design")
  const Task2 := HomeTask(2, "Content Writer for Blog Posts", "Seeking a skilled writer for ongoing blog content.", "$0.05/word", EndOfDay(2025, 6, 5), "Writing")
  const Task3 := HomeTask(3, "Develop a Small E-commerce Site", "Need a developer to build a Shopify store.", "$1500", EndOfDay(2025, 6, 15), "Development")
  const Task4 := HomeTask(4, "Social Media Marketing Campaign", "Plan and execute a 1-month SMM campaign.", "$500", EndOfDay(2025, 5, 30), "Marketing")
  const Task5 := HomeTask(5, "Video Editor for YouTube Channel", "Edit weekly vlogs, 10-15 mins each.", "$100/video", EndOfDay(2025, 6, 2), "Video Editing")
  const Task6 := HomeTask(6, "Data Entry and Virtual Assistant", "Ongoing VA tasks, approx 10 hrs/week.", "$15/hr", EndOfDay(2025, 6, 10), "Admin Support")
  const Task7 := HomeTask(7, "Translate Document from English to Spanish", "10-page technical document.", "$150", EndOfDay(2025, 5, 29), "Translation")
  const Task8 := HomeTask(8, "Mobile App UI/UX Design", "Design mockups for a new fitness app.", "$800", EndOfDay(2025, 6, 20), "Design")

  /** `allTasksData` */
  const AllTasks: seq<HomeTask> := [Task1, Task2, Task3, Task4, Task5, Task6, Task7, Task8]

  /** The built-in tasks in order of their deadlines. */
  const ByDeadline: seq<HomeTask> := [Task1, Task7, Task4, Task5, Task2, Task6, Task3, Task8]

  /** The day numbers of May and June 2025. */
  lemma Days2025(d: int)
    ensures DaysFromCivil(2025, 5, d) == 20208 + d
    ensures DaysFromCivil(2025, 6, d) == 20239 + d
  {
  }

  /** The deadlines of the built-in tasks, in milliseconds. */
  lemma DeadlineKeys()
    ensures DeadlineKey(Task1) == 1748476799000 && DeadlineKey(Task7) == 1748563199000
    ensures DeadlineKey(Task4) == 1748649599000 && DeadlineKey(Task5) == 1748908799000
    ensures DeadlineKey(Task2) == 1749167999000 && DeadlineKey(Task6) == 1749599999000
    ensures DeadlineKey(Task3) == 1750031999000 && DeadlineKey(Task8) == 1750463999000
  {
    Days2025(28);
    Days2025(29);
    Days2025(30);
    Days2025(2);
    Days2025(5);
    Days2025(10);
    Days2025(15);
    Days2025(20);
  }

  /** `ByDeadline` is a rearrangement of the built-in list. */
  lemma ByDeadlinePermutes()
    ensures multiset(ByDeadline) == multiset(AllTasks)
  {
  }

  /** The deadlines along `ByDeadline` strictly increase, so it is the
      only arrangement of the list sorted by deadline. */
  lemma ByDeadlineIncreasing()
    ensures forall i, j :: 0 <= i < j < |ByDeadline| ==> DeadlineKey(ByDeadline[i]) < DeadlineKey(ByDeadline[j])
  {
    DeadlineKeys();
    var keys := [1748476799000, 1748563199000, 1748649599000, 1748908799000,
                 1749167999000, 1749599999000, 1750031999000, 1750463999000];
    assert forall i :: 0 <= i < 8 ==> DeadlineKey(ByDeadline[i]) == keys[i];
  }

  /** The first six of the deadline order. */
  lemma FirstSix()
    ensures ByDeadline[..6] == [Task1, Task7, Task4, Task5, Task2, Task6]
  {
  }

  /** Every arrangement of the built-in list sorted by deadline is
      `ByDeadline`. */
  lemma OnlyDeadlineOrder(order: seq<HomeTask>, six: seq<HomeTask>)
    requires SortedBy(order, DeadlineKey) && multiset(order) == multiset(AllTasks)
    requires six == order[..6]
    ensures order == ByDeadline
    ensures six == [Task1, Task7, Task4, Task5, Task2, Task6]
  {
    ByDeadlinePermutes();
    ByDeadlineIncreasing();
    SortedUnique(ByDeadline, order, DeadlineKey);
    FirstSix();
  }

  /** The description excerpt of a featured card:
      `description.substring(0, 100) + (description.length > 100 ? '...' : '')`. */
  function CardExcerpt(d: string): string
  {
    Substring(d, 0, 100) + (if |d| > 100 then "..." else "")
  }

  /** The card excerpt is the truncation at 100 characters: a short text
      is shown whole, a long one as its first 100 characters and '...'. */
  lemma CardExcerptTruncates(d: string)
    ensures CardExcerpt(d) == Truncate(d, 100)
    ensures |d| <= 100 ==> CardExcerpt(d) == d
    ensures |d| > 100 ==> |CardExcerpt(d)| == 103 && CardExcerpt(d)[..100] == d[..100]
  {
    if |d| <= 100 {
      assert Substring(d, 0, 100) == d;
    }
  }

  /** The page's state: the visible slide and the featured tasks. */
  class HomePage {
    var currentSlide: int
    var featuredTasks: seq<HomeTask>

    /** The visible slide is one of the slides. */
    predicate Valid()
      reads this
    {
      0 <= currentSlide < |Slides|
    }

    constructor ()
      ensures Valid() && currentSlide == 0 && featuredTasks == []
    {
      currentSlide := 0;
      featuredTasks := [];
    }

    /** The "next" arrow, and each tick of the autoplay timer. */
    method Next()
      requires Valid()
      modifies this`currentSlide
      ensures Valid() && currentSlide == NextSlide(old(currentSlide))
    {
      currentSlide := NextSlide(currentSlide);
    }

    /** The "previous" arrow. */
    method Prev()
      requires Valid()
      modifies this`currentSlide
      ensures Valid() && currentSlide == PrevSlide(old(currentSlide))
    {
      currentSlide := PrevSlide(currentSlide);
    }

    /** Dot `index` of the carousel; there is one dot per slide. */
    method SelectSlide(index: int)
      requires 0 <= index < |Slides|
      modifies this`currentSlide
      ensures Valid() && currentSlide == index
    {
      currentSlide := index;
    }

    /** The mount effect: sort a copy of the built-in list by deadline and
        keep the first six. */
    method LoadFeatured()
      modifies this`featuredTasks
      ensures |featuredTasks| == 6 && SortedBy(featuredTasks, DeadlineKey)
      ensures multiset(featuredTasks) <= multiset(AllTasks)
      ensures featuredTasks == [Task1, Task7, Task4, Task5, Task2, Task6]
    {
      var six, order := FirstByKey(AllTasks, DeadlineKey, 6);
      OnlyDeadlineOrder(order, six);
      featuredTasks := six;
    }
  }
}
