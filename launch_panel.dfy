/**
 * The launch panel: the project picker, the two range inputs and the "mix"
 * checkbox, and `handleLaunch`, which refuses to run without a selected
 * project and otherwise creates a log entry describing the launch.
 */
module LaunchPanel {
  import opened Wrappers
  import opened JsArray
  import opened QueryCache
  import opened UseToast
  import opened UseDashboard

  const UnknownProject := "Unknown Project"

  function HasProjectId(selected: string): Project -> bool {
    (p: Project) => p.id == selected
  }

  /** `projects?.find(p => p.id.toString() === selectedProject)`, then
      `project ? project.name : "Unknown Project"`: the name of the first
      project with the selected id, if the projects are loaded and one has it. */
  function ProjectName(projects: Option<seq<Project>>, selected: string): (name: string)
    ensures projects.Some? && (exists i :: 0 <= i < |projects.value| && projects.value[i].id == selected) ==>
              exists i :: && 0 <= i < |projects.value|
                          && projects.value[i].id == selected
                          && name == projects.value[i].name
                          && forall j :: 0 <= j < i ==> projects.value[j].id != selected
    ensures projects.None? || (forall i :: 0 <= i < |projects.value| ==> projects.value[i].id != selected) ==>
              name == UnknownProject
  {
    match projects
    case None => UnknownProject
    case Some(ps) =>
      match Find(ps, HasProjectId(selected))
      case Some(p) => p.name
      case None => UnknownProject
  }

  /** With the mock projects loaded, the picker's ids "1" and "2" name the
      two projects and every other selection names none. */
  lemma ProjectNameOfMock(selected: string)
    ensures ProjectName(Some(FetchProjects()), selected)
            == if selected == "1" then "Project One"
               else if selected == "2" then "Project Two"
               else UnknownProject
  {
    var ps := FetchProjects();
    if selected == "1" {
      assert ps[0].id == selected;
    } else if selected == "2" {
      assert ps[0].id != selected && ps[1].id == selected;
    }
  }

  /** `range || 'All'` */
  function RangeText(range: string): string {
    if range == "" then "All" else range
  }

  function MixText(isMix: bool): string {
    if isMix then "Yes" else "No"
  }

  /** The text after the range in a launch message. */
  function MixTail(isMix: bool): string {
    ", Mix: " + MixText(isMix) + ")"
  }

  /** The log message of a launch:
      `Launched ${name} (Range: ${start || 'All'}-${end || 'All'}, Mix: ${isMix ? 'Yes' : 'No'})` */
  function LaunchMessage(name: string, start: string, end: string, isMix: bool): string {
    "Launched " + name + " (Range: " + RangeText(start) + "-" + RangeText(end) + MixTail(isMix)
  }

  // ---------------------------------------------------------------------------
  // Reading a launch message back

  /** What a launch message says besides the project name. */
  datatype LaunchSummary = LaunchSummary(start: string, end: string, isMix: bool)

  predicate IsDash(c: char) {
    c == '-'
  }

  predicate EndsWith(s: string, suffix: string) {
    |suffix| <= |s| && s[|s| - |suffix|..] == suffix
  }

  /** Recovers the range texts and the mix flag from the message of a launch
      of project `name`; `None` when the text is not such a message. */
  function ReadLaunchMessage(m: string, name: string): Option<LaunchSummary> {
    var head := "Launched " + name + " (Range: ";
    if |m| < |head| || m[..|head|] != head then None
    else ReadLaunchTail(m[|head|..])
  }

  /** Reads the part of a launch message after "(Range: ". The range is split
      at its first '-'. */
  function ReadLaunchTail(rest: string): Option<LaunchSummary> {
    var isMix := EndsWith(rest, MixTail(true));
    if !isMix && !EndsWith(rest, MixTail(false)) then None
    else
      var range := rest[..|rest| - |MixTail(isMix)|];
      var k := FindIndex(range, IsDash);
      if k == |range| then None
      else Some(LaunchSummary(range[..k], range[k + 1..], isMix))
  }

  /** The text after the range tells the two flags apart: ", Mix: Yes)" and
      ", Mix: No)" differ in their next-to-last letter. */
  lemma MixTailDecides(rest: string, isMix: bool)
    requires EndsWith(rest, MixTail(isMix))
    ensures EndsWith(rest, MixTail(true)) <==> isMix
  {
    var n := |rest|;
    assert rest[n - 2] == MixTail(isMix)[|MixTail(isMix)| - 2];
    if EndsWith(rest, MixTail(true)) {
      assert rest[n - 2] == MixTail(true)[|MixTail(true)| - 2];
    }
  }

  /** The first '-' of `a + "-" + b` is the one after `a` when `a` has none. */
  lemma {:induction false} FirstDash(a: string, b: string)
    requires '-' !in a
    ensures FindIndex(a + "-" + b, IsDash) == |a|
  {
    if a != [] {
      assert (a + "-" + b)[0] == a[0];
      assert (a + "-" + b)[1..] == a[1..] + "-" + b;
      FirstDash(a[1..], b);
    }
  }

  /** A launch message gives back the rendered range and the mix flag, as
      long as the start text holds no '-' of its own: the range is split at
      its first '-', so a negative start (`Range: -5-10`) makes the message
      ambiguous, while a negative end does not. */
  lemma ReadLaunchMessageRoundTrip(name: string, start: string, end: string, isMix: bool)
    requires '-' !in start
    ensures ReadLaunchMessage(LaunchMessage(name, start, end, isMix), name)
            == Some(LaunchSummary(RangeText(start), RangeText(end), isMix))
  {
    var m := LaunchMessage(name, start, end, isMix);
    var head := "Launched " + name + " (Range: ";
    var tail := RangeText(start) + "-" + RangeText(end) + MixTail(isMix);
    assert m == head + tail;
    assert m[..|head|] == head && m[|head|..] == tail;
    ReadLaunchTailRoundTrip(RangeText(start), RangeText(end), isMix);
  }

  lemma ReadLaunchTailRoundTrip(a: string, b: string, isMix: bool)
    requires '-' !in a
    ensures ReadLaunchTail(a + "-" + b + MixTail(isMix)) == Some(LaunchSummary(a, b, isMix))
  {
    var range := a + "-" + b;
    var rest := range + MixTail(isMix);
    assert EndsWith(rest, MixTail(isMix));
    MixTailDecides(rest, isMix);
    assert rest[..|rest| - |MixTail(isMix)|] == range;
    FirstDash(a, b);
    assert range[..|a|] == a;
    assert range[|a| + 1..] == b;
  }

  // ---------------------------------------------------------------------------
  // The panel

  /** The guard of `handleLaunch`: `!selectedProject` refuses the launch. */
  predicate LaunchAccepted(selectedProject: string) {
    selectedProject != ""
  }

  class Panel {
    var selectedProject: string
    var startRange: string
    var endRange: string
    var isMix: bool

    constructor ()
      ensures selectedProject == "" && startRange == "" && endRange == "" && !isMix
    {
      selectedProject, startRange, endRange, isMix := "", "", "", false;
    }

    /** The project picker's `onValueChange`. */
    method SetSelectedProject(value: string)
      modifies this
      ensures selectedProject == value
      ensures startRange == old(startRange) && endRange == old(endRange) && isMix == old(isMix)
    {
      selectedProject := value;
    }

    /** The range inputs' `onChange`. */
    method SetRange(start: string, end: string)
      modifies this
      ensures startRange == start && endRange == end
      ensures selectedProject == old(selectedProject) && isMix == old(isMix)
    {
      startRange, endRange := start, end;
    }

    /** The checkbox's `onCheckedChange`. */
    method SetIsMix(value: bool)
      modifies this
      ensures isMix == value
      ensures selectedProject == old(selectedProject) && startRange == old(startRange) && endRange == old(endRange)
    {
      isMix := value;
    }

    /** `disabled={isLaunching || !selectedProject}`: the button is on exactly
        when no launch is pending and `handleLaunch` would accept the launch. */
    function LaunchDisabled(isLaunching: bool): (disabled: bool)
      reads this
      ensures !disabled <==> !isLaunching && LaunchAccepted(selectedProject)
    {
      isLaunching || selectedProject == ""
    }

    /** `handleLaunch`, with the loaded projects, the log's random id and its
        timestamp as parameters. Without a selected project it only shows an
        error toast; otherwise it creates a log for the selected id with the
        launch message, and once that succeeds (the mock always does) shows
        a success toast naming the project. */
    method HandleLaunch(client: QueryClient, toaster: Toaster, projects: Option<seq<Project>>,
                        logId: string, createdAt: string)
      returns (log: Option<Log>)
      modifies client, toaster
      ensures !LaunchAccepted(selectedProject) ==>
                && log.None?
                && client.invalidated == old(client.invalidated)
                && toaster.shown == old(toaster.shown) + [Message(Some("Error"), Some("Please select a project first"))]
      ensures LaunchAccepted(selectedProject) ==>
                var name := ProjectName(projects, selectedProject);
                && log.Some?
                && log.value.projectId == selectedProject
                && log.value.message == LaunchMessage(name, startRange, endRange, isMix)
                && log.value.id == logId && log.value.createdAt == createdAt
                && client.invalidated == old(client.invalidated) + [Projects]
                && toaster.shown == old(toaster.shown) + [Message(Some("Launched Successfully"), Some("Campaign started for " + name))]
    {
      if selectedProject == "" {
        toaster.Toast(Some("Error"), Some("Please select a project first"));
        return None;
      }
      var name := ProjectName(projects, selectedProject);
      var created := CreateLogMutation(client, logId, createdAt, selectedProject,
                                       LaunchMessage(name, startRange, endRange, isMix));
      toaster.Toast(Some("Launched Successfully"), Some("Campaign started for " + name));
      log := Some(created);
    }
  }
}
