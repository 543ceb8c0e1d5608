/** The learning-resources page: a tab bar of resource types, the list of resources of the
    chosen type, an icon per type, and a detail dialog for one selected resource. */
module LearningResources {
  import opened Seqs
  import opened Text
  import opened Optional

  datatype Resource = Resource(
    id: int,
    title: string,
    kind: string,
    duration: string,
    description: string,
    link: string,
    thumbnail: string)

  /** The tab that shows every resource. */
  const AllTab: string := "all"

  const Tabs: seq<string> := [AllTab, "video", "document", "ppt", "notes"]

  const Thumbnail: string := "/placeholder.svg?height=720&width=1280"

  const AllResources: seq<Resource> := [
    Resource(1, "Introduction to Web Development", "Video", "45 min",
      "Learn the basics of HTML, CSS, and JavaScript in this comprehensive introduction to web development.", "#", Thumbnail),
    Resource(2, "JavaScript ES6+ Features", "Document", "20 min read",
      "Explore the powerful features introduced in ES6 and beyond, including arrow functions, destructuring, and more.", "#", Thumbnail),
    Resource(3, "React Hooks Deep Dive", "Video", "1 hour",
      "Master React Hooks with this in-depth tutorial covering useState, useEffect, useContext, and custom hooks.", "#", Thumbnail),
    Resource(4, "CSS Grid and Flexbox Layout Techniques", "PPT", "30 slides",
      "Learn how to create complex layouts easily using CSS Grid and Flexbox with practical examples.", "#", Thumbnail),
    Resource(5, "Node.js and Express.js Fundamentals", "Video", "1.5 hours",
      "Build robust backend applications with Node.js and Express.js in this comprehensive tutorial.", "#", Thumbnail),
    Resource(6, "Database Design Best Practices", "Document", "25 min read",
      "Learn essential database design principles to create efficient and scalable data structures for your applications.", "#", Thumbnail)
  ]

  // ---------------------------------------------------------------------------------------
  // The filter

  /** A resource belongs to a tab when its lowered type is the tab. */
  predicate OfKind(r: Resource, tab: string) {
    ToLower(r.kind) == tab
  }

  /** `filteredResources`: the whole list under "all", otherwise the resources of that type. */
  function FilteredResources(resources: seq<Resource>, tab: string): seq<Resource> {
    if tab == AllTab then resources else Filter(resources, r => OfKind(r, tab))
  }

  /** Under "all" the list is the whole list, unchanged. Under any other tab a resource is kept
      exactly when it is in the list and its lowered type is the tab; order is preserved. */
  lemma FilteredResourcesSpec(resources: seq<Resource>, tab: string, x: Resource)
    ensures tab == AllTab ==> FilteredResources(resources, tab) == resources
    ensures tab != AllTab ==> (x in FilteredResources(resources, tab) <==> x in resources && OfKind(x, tab))
    ensures tab != AllTab ==> forall k :: 0 <= k < |FilteredResources(resources, tab)| ==> OfKind(FilteredResources(resources, tab)[k], tab)
    ensures IsSubsequence(FilteredResources(resources, tab), resources)
  {
    if tab == AllTab {
      SubsequenceReflexive(resources);
    } else {
      FilterMembership(resources, r => OfKind(r, tab), x);
      FilterIsSubsequence(resources, r => OfKind(r, tab));
    }
  }

  /** The lowered types of the page's own list. */
  lemma LoweredKinds()
    ensures ToLower("Video") == "video" && ToLower("Document") == "document" && ToLower("PPT") == "ppt"
  {
    assert ToLower("Video") == "video" by {
      assert Lower('V') == 'v';
    }
    assert ToLower("Document") == "document" by {
      assert Lower('D') == 'd';
    }
    assert ToLower("PPT") == "ppt" by {
      assert Lower('P') == 'p' && Lower('T') == 't';
    }
  }

  /** On the page's own list, the "notes" tab is empty and the "video" tab holds resources 1, 3 and 5. */
  lemma TabsOnResourceList()
    ensures FilteredResources(AllResources, "notes") == []
    ensures FilteredResources(AllResources, "video") == [AllResources[0], AllResources[2], AllResources[4]]
  {
    var s := AllResources;
    LoweredKinds();
    FilterNonePass(s, r => OfKind(r, "notes"));
    var p := r => OfKind(r, "video");
    assert Filter(s[5..], p) == [];
    assert Filter(s[4..], p) == [s[4]];
    assert Filter(s[3..], p) == [s[4]];
    assert Filter(s[2..], p) == [s[2], s[4]];
    assert Filter(s[1..], p) == [s[2], s[4]];
  }

  /** A tab that is not lower case never matches: a lowered type has no upper-case letter. */
  lemma UpperCaseTabMatchesNothing(resources: seq<Resource>, tab: string, i: nat)
    requires i < |tab| && IsUpperAscii(tab[i])
    ensures FilteredResources(resources, tab) == []
  {
    assert forall k :: 0 <= k < |AllTab| ==> !IsUpperAscii(AllTab[k]);
    forall x: Resource
      ensures !OfKind(x, tab)
    {
      var lowered := ToLower(x.kind);
      assert |lowered| != |tab| || !IsUpperAscii(lowered[i]);
    }
    FilterNonePass(resources, r => OfKind(r, tab));
  }

  // ---------------------------------------------------------------------------------------
  // Tab labels and icons

  /** A tab's label: `tab.charAt(0).toUpperCase() + tab.slice(1)`. */
  function TabLabel(tab: string): string {
    if tab == "" then "" else [Upper(tab[0])] + tab[1..]
  }

  /** The label has the tab's length, its first character raised and the rest unchanged;
      lowering the label gives back the lowered tab, so a lower-case tab is recovered. */
  lemma TabLabelSpec(tab: string)
    ensures |TabLabel(tab)| == |tab|
    ensures tab != "" ==> TabLabel(tab)[0] == Upper(tab[0]) && TabLabel(tab)[1..] == tab[1..]
    ensures ToLower(TabLabel(tab)) == ToLower(tab)
  {
    if tab != "" {
      var c := tab[0];
      if IsLowerAscii(c) {
        assert Lower(Upper(c)) == c;
      } else if IsUpperAscii(c) {
        assert Upper(c) == c;
      }
      assert ToLower(TabLabel(tab))[0] == ToLower(tab)[0];
    }
  }

  /** The label of every tab of the bar. */
  lemma LabelsOfTabs()
    ensures TabLabel(Tabs[0]) == "All" && TabLabel(Tabs[1]) == "Video"
    ensures TabLabel(Tabs[2]) == "Document" && TabLabel(Tabs[3]) == "Ppt" && TabLabel(Tabs[4]) == "Notes"
  {
  }

  datatype Icon = VideoIcon | FileTextIcon | ImageIcon | NoIcon

  /** `getIcon`: the icon for a resource type, chosen on the lowered type. */
  function GetIcon(kind: string): Icon {
    var k := ToLower(kind);
    if k == "video" then VideoIcon
    else if k == "document" || k == "notes" then FileTextIcon
    else if k == "ppt" then ImageIcon
    else NoIcon
  }

  /** The icon does not depend on the case of the type, and each icon is chosen by exactly
      these lowered types: video; document or notes; ppt; anything else gets none. */
  lemma GetIconSpec(kind: string)
    ensures GetIcon(ToUpper(kind)) == GetIcon(kind) && GetIcon(ToLower(kind)) == GetIcon(kind)
    ensures GetIcon(kind) == VideoIcon <==> ToLower(kind) == "video"
    ensures GetIcon(kind) == FileTextIcon <==> ToLower(kind) == "document" || ToLower(kind) == "notes"
    ensures GetIcon(kind) == ImageIcon <==> ToLower(kind) == "ppt"
    ensures GetIcon(kind) == NoIcon <==> ToLower(kind) !in {"video", "document", "notes", "ppt"}
  {
    ToLowerOfUpper(kind);
    ToLowerIdempotent(kind);
  }

  // ---------------------------------------------------------------------------------------
  // The page state

  /** The state of the resources page: the active tab and the resource whose dialog is open. */
  class ResourcesSection {
    const resources: seq<Resource>
    var activeTab: string
    var selectedResource: Option<Resource>

    /** The initial state: tab "all", no dialog. */
    constructor ()
      ensures resources == AllResources && activeTab == AllTab && selectedResource == None
      ensures !IsModalOpen()
    {
      resources := AllResources;
      activeTab := AllTab;
      selectedResource := None;
    }

    /** The dialog is shown when a resource is held: `!!selectedResource`. */
    predicate IsModalOpen()
      reads this
    {
      selectedResource.Some?
    }

    /** The cards shown. */
    function Shown(): seq<Resource>
      reads this
    {
      FilteredResources(resources, activeTab)
    }

    /** A tab click: only the tab changes; an open dialog stays open on the same resource. */
    method SelectTab(tab: string)
      modifies this`activeTab
      ensures activeTab == tab
      ensures Shown() == FilteredResources(resources, tab)
      ensures selectedResource == old(selectedResource)
    {
      activeTab := tab;
    }

    /** "View Resource" on a card: hold the resource, which opens the dialog. */
    method Open(r: Resource)
      modifies this`selectedResource
      ensures selectedResource == Some(r) && IsModalOpen()
    {
      selectedResource := Some(r);
    }

    /** Closing the dialog drops the held resource. */
    method Close()
      modifies this`selectedResource
      ensures selectedResource == None && !IsModalOpen()
    {
      selectedResource := None;
    }
  }
}
