// The grievance screen (src/components/admin/GrievanceManagement.tsx): the
// status filter and its per-status counts, the colour and icon mappings, the
// labels, which workflow action each status offers, and the row selection.

module GrievanceManagement {
  import opened Types
  import opened Seqs
  import opened Text
  import opened Queries
  import opened Selection

  /** The filter buttons: every grievance, or those with one status. */
  datatype StatusFilter = AllStatuses | OnlyStatus(status: GrievanceStatus)

  /** `filteredGrievances`. */
  function FilteredGrievances(gs: seq<Grievance>, f: StatusFilter): (r: seq<Grievance>)
    ensures f.AllStatuses? ==> r == gs
    ensures f.OnlyStatus? ==> forall i :: 0 <= i < |r| ==> r[i] in gs && r[i].status == f.status
    ensures f.OnlyStatus? ==> forall i :: 0 <= i < |gs| && gs[i].status == f.status ==> gs[i] in r
  {
    match f
    case AllStatuses => gs
    case OnlyStatus(s) => GrievancesWithStatus(gs, s)
  }

  /** Filtering never reorders: the list shown is the collection with some grievances deleted. */
  lemma FilteredKeepsOrder(gs: seq<Grievance>, f: StatusFilter)
    ensures IsSubsequence(FilteredGrievances(gs, f), gs)
  {
    match f
    case AllStatuses =>
      FilterAll(gs, (g: Grievance) => true);
      FilterIsSubsequence(gs, (g: Grievance) => true);
    case OnlyStatus(s) =>
      FilterIsSubsequence(gs, (g: Grievance) => g.status == s);
  }

  /** `statusCounts`, the numbers on the filter buttons. */
  datatype StatusCounts = StatusCounts(all: nat, open: nat, inProgress: nat, resolved: nat, closed: nat)

  function CountStatuses(gs: seq<Grievance>): (c: StatusCounts)
    ensures c.all == |gs|
    ensures c.all == c.open + c.inProgress + c.resolved + c.closed
  {
    GrievanceStatusPartition(gs);
    StatusCounts(|gs|, |GrievancesWithStatus(gs, Open)|, |GrievancesWithStatus(gs, InProgress)|,
                 |GrievancesWithStatus(gs, Resolved)|, |GrievancesWithStatus(gs, Closed)|)
  }

  /** The number on a filter's button. */
  function CountFor(c: StatusCounts, f: StatusFilter): nat {
    match f
    case AllStatuses => c.all
    case OnlyStatus(Open) => c.open
    case OnlyStatus(InProgress) => c.inProgress
    case OnlyStatus(Resolved) => c.resolved
    case OnlyStatus(Closed) => c.closed
  }

  /** Each button's count is the length of the list that button shows. */
  lemma CountMatchesFilter(gs: seq<Grievance>, f: StatusFilter)
    ensures CountFor(CountStatuses(gs), f) == |FilteredGrievances(gs, f)|
  {
  }

  /** `getStatusColor(status)`. */
  function StatusColor(status: string): (c: Color)
    ensures status == "open" ==> c == Red
    ensures status == "in_progress" ==> c == Yellow
    ensures status == "resolved" ==> c == Green
    ensures status != "open" && status != "in_progress" && status != "resolved" ==> c == Gray
  {
    if status == "open" then Red
    else if status == "in_progress" then Yellow
    else if status == "resolved" then Green
    else if status == "closed" then Gray
    else Gray
  }

  /** Closed grievances share the fallback colour; the three live statuses are told apart. */
  lemma StatusColorsOfStatuses(s1: GrievanceStatus, s2: GrievanceStatus)
    ensures StatusColor(GrievanceStatusName(s1)) == Gray <==> s1 == Closed
    ensures s1 != s2 && s1 != Closed && s2 != Closed ==>
              StatusColor(GrievanceStatusName(s1)) != StatusColor(GrievanceStatusName(s2))
  {
  }

  /** `getPriorityColor(priority)`. */
  function PriorityColor(priority: string): (c: Color)
    ensures priority == "high" ==> c == Red
    ensures priority == "medium" ==> c == Yellow
    ensures priority == "low" ==> c == Green
    ensures priority != "high" && priority != "medium" && priority != "low" ==> c == Gray
  {
    if priority == "high" then Red
    else if priority == "medium" then Yellow
    else if priority == "low" then Green
    else Gray
  }

  /** Every priority has a colour of its own, none of them the fallback. */
  lemma PriorityColorsDistinct(p1: Priority, p2: Priority)
    ensures PriorityColor(PriorityName(p1)) != Gray
    ensures p1 != p2 ==> PriorityColor(PriorityName(p1)) != PriorityColor(PriorityName(p2))
  {
  }

  datatype Icon = ClockIcon | UserIcon | AlertTriangleIcon | MessageSquareIcon

  /** `getCategoryIcon(category)`. */
  function CategoryIcon(category: string): (i: Icon)
    ensures category == "delay" ==> i == ClockIcon
    ensures category == "driver_behavior" ==> i == UserIcon
    ensures category == "bus_condition" ==> i == AlertTriangleIcon
    ensures category != "delay" && category != "driver_behavior" && category != "bus_condition" ==> i == MessageSquareIcon
  {
    if category == "delay" then ClockIcon
    else if category == "driver_behavior" then UserIcon
    else if category == "bus_condition" then AlertTriangleIcon
    else MessageSquareIcon
  }

  /** The category 'other' is the one drawn with the fallback icon. */
  lemma CategoryIconsOfCategories(c1: GrievanceCategory, c2: GrievanceCategory)
    ensures CategoryIcon(CategoryName(c1)) == MessageSquareIcon <==> c1 == OtherCategory
    ensures c1 != c2 ==> CategoryIcon(CategoryName(c1)) != CategoryIcon(CategoryName(c2))
  {
  }

  /** `status.replace('_', ' ').replace(/\b\w/g, l => l.toUpperCase())`. */
  function StatusLabel(status: string): (shown: string)
    ensures |shown| == |status|
  {
    UpperWordStarts(ReplaceFirst(status, '_', ' '))
  }

  /** A status written as one word without underscores is shown capitalised. */
  lemma StatusLabelOfWord(status: string)
    requires '_' !in status
    requires forall i :: 0 <= i < |status| ==> IsWordChar(status[i])
    ensures StatusLabel(status) == Capitalize(status)
  {
    UpperWordStartsOfWord(status);
  }

  /** The one two-word status: the underscore becomes a space and both words are capitalised. */
  lemma InProgressLabel()
    ensures StatusLabel(GrievanceStatusName(InProgress)) == "In Progress"
  {
    UnderscoreOfInProgress();
    WordStartsOfInProgress();
  }

  lemma UnderscoreOfInProgress()
    ensures ReplaceFirst("in_progress", '_', ' ') == "in progress"
  {
    var s := "in_progress";
    assert s[2] == '_' && '_' !in s[..2];
    assert IndexOf(s, '_') == 2;
    assert s[..2] + [' '] + s[3..] == "in progress";
  }

  lemma WordStartsOfInProgress()
    ensures UpperWordStarts("in progress") == "In Progress"
  {
    assert "in progress" == "in" + " " + "progress";
    UpperWordStartsAroundSpace("in", "progress");
    WordStartsOfIn();
    WordStartsOfProgress();
    assert "In" + " " + "Progress" == "In Progress";
  }

  lemma WordStartsOfIn()
    ensures UpperWordStarts("in") == "In"
  {
    UpperWordStartsOfWord("in");
    assert Capitalize("in") == "In";
  }

  lemma WordStartsOfProgress()
    ensures UpperWordStarts("progress") == "Progress"
  {
    var w := "progress";
    assert forall i :: 0 <= i < |w| ==> 'a' <= w[i] <= 'z';
    UpperWordStartsOfWord(w);
    assert Capitalize(w) == [ToUpper('p')] + w[1..];
  }

  /** The one-word statuses are shown capitalised, as on the fleet screen. */
  lemma OneWordStatusLabels(status: GrievanceStatus)
    requires status != InProgress
    ensures StatusLabel(GrievanceStatusName(status)) == Capitalize(GrievanceStatusName(status))
  {
    LowercaseWordLabel(GrievanceStatusName(status));
  }

  lemma LowercaseWordLabel(status: string)
    requires forall i :: 0 <= i < |status| ==> 'a' <= status[i] <= 'z'
    ensures StatusLabel(status) == Capitalize(status)
  {
    StatusLabelOfWord(status);
  }

  /** `priority.charAt(0).toUpperCase() + priority.slice(1)` followed by " Priority". */
  function PriorityLabel(priority: string): (shown: string)
    ensures |shown| == |priority| + 9
    ensures shown[..|priority|] == Capitalize(priority)
    ensures shown[|priority|..] == " Priority"
  {
    Capitalize(priority) + " Priority"
  }

  /** The three priorities as the list shows them. */
  lemma PriorityLabels()
    ensures PriorityLabel(PriorityName(High)) == "High Priority"
    ensures PriorityLabel(PriorityName(Medium)) == "Medium Priority"
    ensures PriorityLabel(PriorityName(Low)) == "Low Priority"
  {
    HighPriorityLabel();
    MediumPriorityLabel();
    LowPriorityLabel();
  }

  // One priority per lemma keeps each comparison of string literals small.
  lemma HighPriorityLabel()
    ensures PriorityLabel("high") == "High Priority"
  {
    assert Capitalize("high") == "High";
  }

  lemma MediumPriorityLabel()
    ensures PriorityLabel("medium") == "Medium Priority"
  {
    assert Capitalize("medium") == "Medium";
  }

  lemma LowPriorityLabel()
    ensures PriorityLabel("low") == "Low Priority"
  {
    assert Capitalize("low") == "Low";
  }

  /** The category in the details panel: `category.replace('_', ' ')`, only the first underscore. */
  function CategoryText(category: string): (shown: string)
    ensures |shown| == |category|
    ensures '_' !in category ==> shown == category
    ensures '_' in category ==>
              shown[IndexOf(category, '_')] == ' ' &&
              forall i :: 0 <= i < |category| && i != IndexOf(category, '_') ==> shown[i] == category[i]
  {
    ReplaceFirst(category, '_', ' ')
  }

  /** The four categories as the details panel shows them: the two-word ones get a space. */
  lemma CategoryTexts(c: GrievanceCategory)
    ensures c == Delay ==> CategoryText(CategoryName(c)) == "delay"
    ensures c == DriverBehavior ==> CategoryText(CategoryName(c)) == "driver" + " " + "behavior"
    ensures c == BusCondition ==> CategoryText(CategoryName(c)) == "bus" + " " + "condition"
    ensures c == OtherCategory ==> CategoryText(CategoryName(c)) == "other"
  {
    match c
    case DriverBehavior => DriverBehaviorText();
    case BusCondition => BusConditionText();
    case _ =>
  }

  // One two-word category per lemma keeps each comparison of string literals small.
  lemma DriverBehaviorText()
    ensures CategoryText(CategoryName(DriverBehavior)) == "driver" + " " + "behavior"
  {
    TwoWordCategoryText("driver", "behavior");
    assert CategoryName(DriverBehavior) == "driver" + "_" + "behavior";
  }

  lemma BusConditionText()
    ensures CategoryText(CategoryName(BusCondition)) == "bus" + " " + "condition"
  {
    TwoWordCategoryText("bus", "condition");
    assert CategoryName(BusCondition) == "bus" + "_" + "condition";
  }

  /** A category of two words joined by one underscore is shown with a space between them. */
  lemma TwoWordCategoryText(first: string, second: string)
    requires '_' !in first
    ensures CategoryText(first + "_" + second) == first + " " + second
    ensures '_' !in second ==> '_' !in CategoryText(first + "_" + second)
  {
    var s, t := first + "_" + second, first + " " + second;
    assert s[|first|] == '_';
    assert '_' !in s[..|first|] by { assert s[..|first|] == first; }
    assert IndexOf(s, '_') == |first|;
    var r := CategoryText(s);
    forall i | 0 <= i < |s| ensures r[i] == t[i] {
    }
  }

  /** The "Assigned to" line, drawn only for a non-empty assignee. */
  function AssignedToLine(g: Grievance): (line: Option<string>)
    ensures line.Some? <==> g.assignedTo.Some? && g.assignedTo.value != ""
    ensures line.Some? ==> line.value == g.assignedTo.value
  {
    match g.assignedTo
    case Some(who) => if who != "" then Some(who) else None
    case None => None
  }

  datatype Action = AssignToTeam | MarkResolved | ContactUser | AddNote

  /** The buttons in the details panel. */
  function Actions(status: GrievanceStatus): (r: seq<Action>)
    ensures AssignToTeam in r <==> status == Open
    ensures MarkResolved in r <==> status == InProgress
    ensures ContactUser in r && AddNote in r
    ensures !(AssignToTeam in r && MarkResolved in r)
  {
    (if status == Open then [AssignToTeam] else []) +
    (if status == InProgress then [MarkResolved] else []) +
    [ContactUser, AddNote]
  }

  /** Resolved and closed grievances offer no workflow step, only contact and notes. */
  lemma SettledGrievancesHaveNoWorkflowStep(status: GrievanceStatus)
    requires status == Resolved || status == Closed
    ensures Actions(status) == [ContactUser, AddNote]
  {
  }

  /** The screen's state: the filter chosen and the grievance expanded. */
  class GrievanceManagementState {
    var selectedStatus: StatusFilter
    var selectedGrievance: Option<string>

    constructor()
      ensures selectedStatus == AllStatuses && selectedGrievance == None
    {
      selectedStatus, selectedGrievance := AllStatuses, None;
    }

    method SelectStatus(f: StatusFilter)
      modifies this`selectedStatus
      ensures selectedStatus == f
    {
      selectedStatus := f;
    }

    /** A click on a grievance: the expanded one collapses, any other expands. */
    method ClickGrievance(id: string)
      modifies this`selectedGrievance
      ensures selectedGrievance == Toggle(old(selectedGrievance), id)
      ensures selectedGrievance == None <==> old(selectedGrievance) == Some(id)
    {
      selectedGrievance := Toggle(selectedGrievance, id);
    }

    /** The list drawn under the filter buttons. */
    function Shown(gs: seq<Grievance>): (r: seq<Grievance>)
      reads this
      ensures IsSubsequence(r, gs)
      ensures |r| == CountFor(CountStatuses(gs), selectedStatus)
      ensures r == FilteredGrievances(gs, selectedStatus)
    {
      FilteredKeepsOrder(gs, selectedStatus);
      CountMatchesFilter(gs, selectedStatus);
      FilteredGrievances(gs, selectedStatus)
    }
  }
}
