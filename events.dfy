/** The events page: two tabs, upcoming and past, each showing its own list of events, and a
    detail dialog for the event whose details were asked for. */
module Events {
  import opened Optional

  datatype Speaker = Speaker(name: string, image: string)

  datatype Event = Event(
    id: int,
    title: string,
    date: string,
    time: string,
    location: string,
    image: string,
    description: string,
    speakers: seq<Speaker>,
    agenda: seq<string>)

  const UpcomingTab: string := "upcoming"
  const PastTab: string := "past"

  const EventImage: string := "/placeholder.svg?height=200&width=400"
  const SpeakerImage: string := "/placeholder.svg?height=100&width=100"

  const UpcomingEvents: seq<Event> := [
    Event(1, "Web Development Workshop", "August 15, 2024", "2:00 PM - 5:00 PM", "Virtual (Zoom)", EventImage,
      "Join us for an intensive workshop on modern web development techniques and best practices.",
      [Speaker("Jane Doe", SpeakerImage), Speaker("John Smith", SpeakerImage)],
      ["Introduction to HTML5 and CSS3", "JavaScript ES6+ features", "React.js fundamentals",
       "Building responsive layouts", "Q&A session"]),
    Event(2, "AI in Web Applications Seminar", "September 5, 2024", "3:00 PM - 6:00 PM", "Tech Hub Auditorium", EventImage,
      "Explore the integration of AI technologies in modern web applications.",
      [Speaker("Alice Johnson", SpeakerImage), Speaker("Bob Williams", SpeakerImage)],
      ["Introduction to AI in web development", "Machine learning models for web apps",
       "Natural Language Processing in user interfaces", "Ethical considerations in AI", "Panel discussion"]),
    Event(3, "Hackathon: Build for the Future", "October 10-12, 2024", "All Day", "University Campus", EventImage,
      "A 48-hour coding challenge to build innovative solutions for future technologies.",
      [Speaker("Eva Brown", SpeakerImage), Speaker("Michael Lee", SpeakerImage)],
      ["Opening ceremony and team formation", "Coding sessions", "Mentorship hours",
       "Project presentations", "Awards ceremony"]),
    Event(4, "Mobile App Development Workshop", "November 20, 2024", "1:00 PM - 4:00 PM", "Innovation Center", EventImage,
      "Learn to build cross-platform mobile apps using React Native.",
      [Speaker("Sarah Davis", SpeakerImage), Speaker("Tom Wilson", SpeakerImage)],
      ["Introduction to React Native", "Setting up the development environment", "Building UI components",
       "Handling user input and navigation", "Publishing your app"])
  ]

  const PastEvents: seq<Event> := [
    Event(5, "JavaScript Fundamentals Course", "May 20, 2024", "2:00 PM - 5:00 PM", "Online", EventImage,
      "A comprehensive course covering the basics of JavaScript programming.",
      [Speaker("Emily Chen", SpeakerImage)],
      ["Variables and data types", "Control structures", "Functions and scope",
       "DOM manipulation", "Asynchronous JavaScript"]),
    Event(6, "UI/UX Design Principles Workshop", "June 15, 2024", "10:00 AM - 1:00 PM", "Design Studio", EventImage,
      "Learn the fundamental principles of creating user-friendly interfaces.",
      [Speaker("Olivia Taylor", SpeakerImage)],
      ["Introduction to UI/UX design", "User research and personas", "Wireframing and prototyping",
       "Visual design principles", "Usability testing"]),
    Event(7, "Data Structures and Algorithms Seminar", "July 5, 2024", "3:00 PM - 6:00 PM", "Computer Science Building", EventImage,
      "An in-depth look at essential data structures and algorithms for efficient programming.",
      [Speaker("Dr. Alan Turing", SpeakerImage)],
      ["Arrays and linked lists", "Trees and graphs", "Sorting and searching algorithms",
       "Dynamic programming", "Algorithm complexity analysis"]),
    Event(8, "Open Source Contribution Workshop", "July 25, 2024", "2:00 PM - 5:00 PM", "Virtual (Discord)", EventImage,
      "Learn how to contribute to open source projects and collaborate with developers worldwide.",
      [Speaker("Linus Torvalds", SpeakerImage)],
      ["Introduction to open source", "Git and GitHub basics", "Finding projects to contribute to",
       "Creating pull requests", "Open source etiquette and best practices"])
  ]

  /** The `events` object: one list per tab key. */
  const EventsByTab: map<string, seq<Event>> := map[UpcomingTab := UpcomingEvents, PastTab := PastEvents]

  /** No two events carry the same id. */
  ghost predicate DistinctIds(events: seq<Event>) {
    forall i, j :: 0 <= i < j < |events| ==> events[i].id != events[j].id
  }

  /** The ids serve as card keys: they are distinct across both lists taken together, so
      within each list as well. */
  lemma EventIdsDistinct()
    ensures DistinctIds(UpcomingEvents + PastEvents)
    ensures DistinctIds(UpcomingEvents) && DistinctIds(PastEvents)
  {
    var all := UpcomingEvents + PastEvents;
    assert forall k :: 0 <= k < |all| ==> all[k].id == k + 1;
    assert forall k :: 0 <= k < |PastEvents| ==> PastEvents[k] == all[k + |UpcomingEvents|];
  }

  /** The state of the events page. */
  class EventPage {
    const events: map<string, seq<Event>>
    var activeTab: string
    var selectedEvent: Option<Event>

    /** The active tab is always one of the two keys of the events object. */
    ghost predicate Valid()
      reads this
    {
      events == EventsByTab && (activeTab == UpcomingTab || activeTab == PastTab)
    }

    /** The initial state: the upcoming tab, no dialog. */
    constructor ()
      ensures Valid() && activeTab == UpcomingTab && selectedEvent == None
      ensures Shown() == UpcomingEvents && !IsModalOpen()
    {
      events := EventsByTab;
      activeTab := UpcomingTab;
      selectedEvent := None;
    }

    /** The cards shown: `events[activeTab]`. */
    function Shown(): (r: seq<Event>)
      requires Valid()
      reads this
      ensures r == (if activeTab == UpcomingTab then UpcomingEvents else PastEvents)
    {
      events[activeTab]
    }

    /** The dialog is shown when an event is held: `!!selectedEvent`. */
    predicate IsModalOpen()
      reads this
    {
      selectedEvent.Some?
    }

    /** The "Upcoming Events" button; the held event stays as it is. */
    method ShowUpcoming()
      requires Valid()
      modifies this`activeTab
      ensures Valid() && activeTab == UpcomingTab && Shown() == UpcomingEvents
      ensures selectedEvent == old(selectedEvent)
    {
      activeTab := UpcomingTab;
    }

    /** The "Past Events" button; the held event stays as it is. */
    method ShowPast()
      requires Valid()
      modifies this`activeTab
      ensures Valid() && activeTab == PastTab && Shown() == PastEvents
      ensures selectedEvent == old(selectedEvent)
    {
      activeTab := PastTab;
    }

    /** `handleViewDetails`: hold the event, which opens the dialog. */
    method ViewDetails(e: Event)
      modifies this`selectedEvent
      ensures selectedEvent == Some(e) && IsModalOpen()
    {
      selectedEvent := Some(e);
    }

    /** Closing the dialog drops the held event. */
    method Close()
      modifies this`selectedEvent
      ensures selectedEvent == None && !IsModalOpen()
    {
      selectedEvent := None;
    }
  }
}
