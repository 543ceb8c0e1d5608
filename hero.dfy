/** The home page: a carousel of slides that steps forward on a timer or by arrow buttons,
    and a roadmap whose clicked step selects the content shown below it. */
module Hero {
  import opened JsOps

  // ---------------------------------------------------------------------------------------
  // Carousel

  datatype Slide = Slide(title: string, description: string, buttonText: string, image: string)

  const CarouselItems: seq<Slide> := [
    Slide("Join the Future of Web Development", "Collaborate, Learn, and Create with Peers at DevsOnLoop",
      "Join Us", "https://www.simplilearn.com/ice9/free_resources_article_thumb/is_web_development_good_career.jpg"),
    Slide("Upcoming Hackathon", "Get ready for our 24-hour coding challenge",
      "Register Now", "https://www.kreativdistrikt.com/wp-content/uploads/2024/02/The-Art-of-Successful-Hackathon-Management.webp"),
    Slide("Open Source Projects", "Contribute to real-world projects and gain experience",
      "Explore Projects", "https://onlim.com/wp-content/uploads/Open-Source.jpg")
  ]

  /** `(i + 1) % n`, with JavaScript's remainder. */
  function NextIndex(i: int, n: int): int
    requires n > 0
  {
    Rem(i + 1, n)
  }

  /** `(i - 1 + n) % n`, with JavaScript's remainder. */
  function PrevIndex(i: int, n: int): int
    requires n > 0
  {
    Rem(i - 1 + n, n)
  }

  /** On an index in `[0, n)` both steps stay in `[0, n)`: forward goes to the following slide,
      wrapping from the last to the first, and back goes to the preceding one, wrapping from the
      first to the last. */
  lemma StepsStayInRange(i: int, n: int)
    requires n > 0 && 0 <= i < n
    ensures 0 <= NextIndex(i, n) < n && 0 <= PrevIndex(i, n) < n
    ensures NextIndex(i, n) == if i == n - 1 then 0 else i + 1
    ensures PrevIndex(i, n) == if i == 0 then n - 1 else i - 1
  {
    RemNonNegative(i + 1, n);
    RemNonNegative(i - 1 + n, n);
    if i == n - 1 {
      ModUnique(i + 1, n, 1, 0);
    } else {
      ModUnique(i + 1, n, 0, i + 1);
    }
    if i == 0 {
      ModUnique(i - 1 + n, n, 0, n - 1);
    } else {
      ModUnique(i - 1 + n, n, 1, i - 1);
    }
  }

  /** The remainder is the unique `r` in `[0, n)` with `x == q * n + r`. */
  lemma ModUnique(x: int, n: int, q: int, r: int)
    requires n > 0 && 0 <= r < n && x == q * n + r
    ensures x % n == r
  {
    var q', r' := x / n, x % n;
    assert x == q' * n + r';
    var d := q - q';
    assert d * n == r' - r by {
      assert q * n - q' * n == (q - q') * n;
    }
    MultipleBounds(d, n);
  }

  /** A non-zero multiple of `n` is at least `n` away from zero. */
  lemma MultipleBounds(d: int, n: int)
    requires n > 0
    ensures d >= 1 ==> d * n >= n
    ensures d <= -1 ==> d * n <= -n
  {
    if d >= 1 {
      assert d * n == (d - 1) * n + n;
      assert (d - 1) * n >= 0;
    } else if d <= -1 {
      assert d * n == (d + 1) * n - n;
      assert (-(d + 1)) * n >= 0;
    }
  }

  /** Back undoes forward and forward undoes back. */
  lemma StepsAreInverse(i: int, n: int)
    requires n > 0 && 0 <= i < n
    ensures PrevIndex(NextIndex(i, n), n) == i
    ensures NextIndex(PrevIndex(i, n), n) == i
  {
    StepsStayInRange(i, n);
    StepsStayInRange(NextIndex(i, n), n);
    StepsStayInRange(PrevIndex(i, n), n);
  }

  /** `k` forward steps from `i`. */
  function NextTimes(i: int, n: int, k: nat): int
    requires n > 0
  {
    if k == 0 then i else NextIndex(NextTimes(i, n, k - 1), n)
  }

  /** `k` forward steps from an index in range land on `(i + k) mod n`. */
  lemma {:induction false} NextTimesIsOffset(i: int, n: int, k: nat)
    requires n > 0 && 0 <= i < n
    ensures NextTimes(i, n, k) == (i + k) % n
  {
    if k > 0 {
      NextTimesIsOffset(i, n, k - 1);
      var j := NextTimes(i, n, k - 1);
      StepsStayInRange(j, n);
      ModSuccessor(i + k - 1, n);
    }
  }

  /** Stepping forward from `x mod n` reaches `(x + 1) mod n`. */
  lemma ModSuccessor(x: nat, n: int)
    requires n > 0
    ensures (if x % n == n - 1 then 0 else x % n + 1) == (x + 1) % n
  {
    var q, r := x / n, x % n;
    assert x == q * n + r;
    if r == n - 1 {
      assert x + 1 == (q + 1) * n + 0;
      ModUnique(x + 1, n, q + 1, 0);
    } else {
      ModUnique(x + 1, n, q, r + 1);
    }
  }

  /** `n` forward steps bring the carousel back to where it started. */
  lemma FullCycle(i: int, n: int)
    requires n > 0 && 0 <= i < n
    ensures NextTimes(i, n, n) == i
  {
    NextTimesIsOffset(i, n, n);
    ModUnique(i + n, n, 1, i);
  }

  /** The carousel's state: the index of the slide shown. */
  class Carousel {
    const items: seq<Slide>
    var currentIndex: int

    ghost predicate Valid()
      reads this
    {
      |items| > 0 && 0 <= currentIndex < |items|
    }

    /** The render reads `items[0]`, so the carousel is given at least one slide. */
    constructor (items: seq<Slide>)
      requires |items| > 0
      ensures Valid() && this.items == items && currentIndex == 0
    {
      this.items := items;
      currentIndex := 0;
    }

    /** The slide shown. */
    function Current(): (s: Slide)
      requires Valid()
      reads this
      ensures s in items
    {
      items[currentIndex]
    }

    method NextSlide()
      requires Valid()
      modifies this`currentIndex
      ensures Valid()
      ensures currentIndex == NextIndex(old(currentIndex), |items|)
    {
      StepsStayInRange(currentIndex, |items|);
      currentIndex := NextIndex(currentIndex, |items|);
    }

    method PrevSlide()
      requires Valid()
      modifies this`currentIndex
      ensures Valid()
      ensures currentIndex == PrevIndex(old(currentIndex), |items|)
    {
      StepsStayInRange(currentIndex, |items|);
      currentIndex := PrevIndex(currentIndex, |items|);
    }

    /** The interval timer's update is the same step as the forward arrow. */
    method TimerTick()
      requires Valid()
      modifies this`currentIndex
      ensures Valid()
      ensures currentIndex == NextIndex(old(currentIndex), |items|)
    {
      NextSlide();
    }
  }

  /** The home page's carousel: `<Carousel items={carouselItems} />`, three slides, first shown. */
  method HomeCarousel() returns (c: Carousel)
    ensures fresh(c) && c.Valid() && c.items == CarouselItems && c.currentIndex == 0
    ensures |c.items| == 3 && c.Current() == CarouselItems[0]
  {
    c := new Carousel(CarouselItems);
  }

  // ---------------------------------------------------------------------------------------
  // Roadmap

  datatype Detail = Detail(title: string, description: string)

  datatype RoadmapStep = RoadmapStep(id: int, date: string, title: string, description: string, details: seq<Detail>)

  const RoadmapSteps: seq<RoadmapStep> := [
    RoadmapStep(1, "September 2023", "Club Foundation",
      "DevsOnLoop was established with 20 founding members, setting the stage for a vibrant community of student developers.",
      [Detail("Founding Team", "Assembled a diverse group of passionate students to lead the club."),
       Detail("Mission Statement", "Defined our goal to foster collaboration and innovation in web & App development.")]),
    RoadmapStep(2, "December 2023", "First Hackathon",
      "Successfully organized our inaugural 24-hour coding challenge, bringing together students from various disciplines.",
      [Detail("Event Planning", "Coordinated logistics, sponsors, and mentors for the hackathon."),
       Detail("Project Showcase", "Highlighted innovative projects created during the event.")]),
    RoadmapStep(3, "March 2024", "Open Source Contribution",
      "Collaborated on a major open source project, making over 100 commits and gaining real-world development experience.",
      [Detail("Project Selection", "Chose a high-impact open source project aligned with our skills and interests."),
       Detail("Contribution Process", "Learned about git workflows, code reviews, and collaborative coding practices.")]),
    RoadmapStep(4, "June 2024", "Summer Bootcamp",
      "Launching our intensive web development bootcamp for beginners, aiming to introduce more students to the world of coding.",
      [Detail("Curriculum Development", "Created a comprehensive syllabus covering HTML, CSS, JavaScript, and modern frameworks."),
       Detail("Mentorship Program", "Paired experienced club members with beginners for personalized guidance.")]),
    RoadmapStep(5, "September 2024", "Tech Talk Series",
      "Launched a monthly tech talk series featuring industry experts and alumni, providing insights into the latest trends and career opportunities.",
      [Detail("Speaker Lineup", "Curated a diverse range of speakers from various tech fields."),
       Detail("Knowledge Sharing", "Facilitated Q&A sessions and networking opportunities for attendees.")]),
    RoadmapStep(6, "December 2024", "National Recognition",
      "Recognized as a top college developer club nationally, showcasing our projects and community impact.",
      [Detail("Achievement Compilation", "Documented our journey, projects, and member success stories."),
       Detail("Networking", "Established connections with industry professionals and other top-tier clubs.")])
  ]

  /** The ids count up from 1 in array order. */
  ghost predicate IdsArePositions(steps: seq<RoadmapStep>) {
    forall k :: 0 <= k < |steps| ==> steps[k].id == k + 1
  }

  lemma RoadmapIdsArePositions()
    ensures |RoadmapSteps| == 6 && IdsArePositions(RoadmapSteps)
  {
  }

  /** When ids are positions, the step at position `id - 1` is the one carrying `id`, and it is
      the only such step; so it is the only step drawn as active. */
  lemma LookupByPosition(steps: seq<RoadmapStep>, id: int)
    requires IdsArePositions(steps) && 1 <= id <= |steps|
    ensures steps[id - 1].id == id
    ensures forall k :: 0 <= k < |steps| ==> (steps[k].id == id <==> k == id - 1)
  {
  }

  /** The roadmap's state: the id of the active step. */
  class Roadmap {
    const steps: seq<RoadmapStep>
    var activeStep: int

    /** The active step is the id of one of the steps, which are numbered by position. */
    ghost predicate Valid()
      reads this
    {
      IdsArePositions(steps) && 1 <= activeStep <= |steps|
    }

    /** The initial state: step 1 active. */
    constructor ()
      ensures Valid() && steps == RoadmapSteps && activeStep == 1
    {
      steps := RoadmapSteps;
      activeStep := 1;
    }

    /** Whether a step is drawn as active: `activeStep === step.id`. */
    predicate IsActive(step: RoadmapStep)
      reads this
    {
      activeStep == step.id
    }

    /** The content shown: `roadmapSteps[activeStep - 1]`, which is the active step. */
    function Content(): (s: RoadmapStep)
      requires Valid()
      reads this
      ensures s in steps && s.id == activeStep && IsActive(s)
    {
      LookupByPosition(steps, activeStep);
      steps[activeStep - 1]
    }

    /** A click on a step of the roadmap: `setActiveStep(step.id)`. */
    method ClickStep(step: RoadmapStep)
      requires Valid() && step in steps
      modifies this`activeStep
      ensures Valid()
      ensures activeStep == step.id && Content() == step
    {
      activeStep := step.id;
    }
  }
}
