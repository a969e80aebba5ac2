/**
 * The complaint tracking page: it looks a complaint up by id in the reconciled list, completes
 * the record with a synthesised timeline and a default officer, counts down the 48-hour service
 * level agreement (SLA), and asks for feedback once a complaint is resolved.
 *
 * Statuses are compared as written: the page tests the lowercase values "resolved" and
 * "in_progress", while seeds and newly registered records carry "Resolved" and "In Progress".
 */
module TrackComplaint {
  import opened Wrappers
  import opened Text
  import opened Seqs
  import opened Complaints
  import opened Storage

  const MinuteMs := 60_000
  const HourMs := 3_600_000
  /** The SLA window: 48 hours. */
  const SlaMs := 48 * HourMs

  /** A seed of the tracking page: the list fields plus subject, department, registration instant
   *  (midnight UTC of the seed's day) and location. */
  function TrackSeed(id: string, title: string, category: string, status: string, day: int, progress: int,
                     location: string): Complaint
  {
    Complaint(id, title, category, status, day, progress, None, Some(title), Some(category),
              Some(day * MsPerDay), Some(location), None, None, None)
  }

  const TrackSeeds: seq<Complaint> := [
    TrackSeed("2025-12346", "Water leakage in main pipeline", "Water Supply", "In Progress", 20116, 65,
              "Main Road, Ward Complex"),
    TrackSeed("2025-12345", "Pothole on main road near market", "Roads & Traffic", "Resolved", 20113, 100,
              "Market Area, Near Junction"),
    TrackSeed("2025-12344", "Street light not working for 2 months", "Municipal Services", "Resolved", 20108, 100,
              "City Center Road"),
    TrackSeed("2025-12343", "Noise pollution from construction site", "Environment", "Escalated", 20103, 45,
              "Construction Zone")
  ]

  /** The tracking seeds have distinct ids, and none carries a status the page tests for. */
  lemma TrackSeedsFacts()
    ensures UniqueIds(TrackSeeds)
    ensures forall c :: c in TrackSeeds ==> c.status != "resolved" && c.status != "in_progress"
  {
    assert "2025-12346"[9] == '6' && "2025-12345"[9] == '5';
    assert "2025-12344"[9] == '4' && "2025-12343"[9] == '3';
  }

  // ---------------------------------------------------------------- timeline

  /** `new Date(complaint.registeredDate)`: invalid when the record has no registration date. */
  function RegisteredAt(c: Complaint): Instant {
    match c.registeredDate
    case Some(ms) => Ms(ms)
    case None => InvalidDate
  }

  /** `${complaint.department}` in a template: "undefined" when the field is absent. */
  function DepartmentText(c: Complaint): string {
    match c.department
    case Some(d) => d
    case None => "undefined"
  }

  /** The number of completed steps. */
  function CompletedCount(t: seq<TimelineStep>): nat {
    |Filter(t, (s: TimelineStep) => s.completed)|
  }

  /** Some step of `t` has status `status`. */
  predicate HasStep(t: seq<TimelineStep>, status: string) {
    exists i :: 0 <= i < |t| && t[i].status == status
  }

  /**
   * What the synthesised timeline promises. It opens with the completed "received" step at the
   * registration instant and the completed "assigned" step 45 minutes later. A completed
   * "in_progress" step two hours in exists exactly when the status is "in_progress" or
   * "resolved". A resolved complaint has five steps, all completed; one in progress has five with
   * three completed; any other status has four with two completed. Completed steps precede
   * pending ones. The last two steps are the "action" step 24 hours in and the "resolved" step:
   * taken, and resolved now, for a resolved complaint; otherwise pending, with the resolution
   * expected 48 hours after registration.
   */
  predicate DefaultTimelineShape(c: Complaint, now: int, t: seq<TimelineStep>) {
    var reg := RegisteredAt(c);
    var investigating := c.status == "in_progress" || c.status == "resolved";
    && |t| == (if investigating then 5 else 4)
    && CompletedCount(t) == (if c.status == "resolved" then 5 else if c.status == "in_progress" then 3 else 2)
    && (forall i, j :: 0 <= i < j < |t| && t[j].completed ==> t[i].completed)
    && t[0] == TimelineStep("received", "Complaint Received", "Your complaint has been registered successfully",
                            At(reg), true)
    && t[1] == TimelineStep("assigned", "Assigned to Officer", "Assigned to " + DepartmentText(c),
                            At(reg.Plus(45 * MinuteMs)), true)
    && (HasStep(t, "in_progress") <==> investigating)
    && (investigating ==> t[2].status == "in_progress" && t[2].date == At(reg.Plus(2 * HourMs)) && t[2].completed)
    && t[|t| - 2] == (if c.status == "resolved"
                      then TimelineStep("action", "Action Taken", "Field team deployed and action initiated",
                                        At(reg.Plus(24 * HourMs)), true)
                      else TimelineStep("action", "Action Pending", "Awaiting field team deployment",
                                        ExpectedBy(reg.Plus(24 * HourMs)), false))
    && t[|t| - 1] == (if c.status == "resolved"
                      then TimelineStep("resolved", "Resolved", "Issue resolved and verified", At(Ms(now)), true)
                      else TimelineStep("resolved", "Resolution", "Issue resolution and verification pending",
                                        ExpectedBy(reg.Plus(SlaMs)), false))
  }

  /** `generateDefaultTimeline`, with the current instant passed in. */
  method GenerateDefaultTimeline(c: Complaint, now: int) returns (timeline: seq<TimelineStep>)
    ensures DefaultTimelineShape(c, now, timeline)
  {
    var reg := RegisteredAt(c);
    timeline := [
      TimelineStep("received", "Complaint Received", "Your complaint has been registered successfully",
                   At(reg), true),
      TimelineStep("assigned", "Assigned to Officer", "Assigned to " + DepartmentText(c),
                   At(reg.Plus(45 * MinuteMs)), true)
    ];
    if c.status == "in_progress" || c.status == "resolved" {
      timeline := timeline + [TimelineStep("in_progress", "Under Investigation", "Officer is investigating the issue",
                                           At(reg.Plus(2 * HourMs)), true)];
    }
    if c.status == "resolved" {
      timeline := timeline + [TimelineStep("action", "Action Taken", "Field team deployed and action initiated",
                                           At(reg.Plus(24 * HourMs)), true)];
      timeline := timeline + [TimelineStep("resolved", "Resolved", "Issue resolved and verified", At(Ms(now)), true)];
    } else {
      timeline := timeline + [TimelineStep("action", "Action Pending", "Awaiting field team deployment",
                                           ExpectedBy(reg.Plus(24 * HourMs)), false)];
      timeline := timeline + [TimelineStep("resolved", "Resolution", "Issue resolution and verification pending",
                                           ExpectedBy(reg.Plus(SlaMs)), false)];
    }
    var done := c.status == "resolved";
    StagedCount(timeline, done);
    StagedOrder(timeline, done);
    if |timeline| == 4 {
      assert timeline[2].status == "action" && timeline[3].status == "resolved";
    } else {
      assert timeline[2].status == "in_progress";
    }
  }

  /** A timeline of four or five steps whose first two (or three) steps are completed and whose
   *  last two are both completed or both pending. */
  predicate Staged(t: seq<TimelineStep>, done: bool) {
    && (|t| == 4 || |t| == 5)
    && t[0].completed && t[1].completed && (|t| == 5 ==> t[2].completed)
    && t[|t| - 2].completed == done && t[|t| - 1].completed == done
  }

  /** Such a timeline has every step completed, or all but the last two. */
  lemma StagedCount(t: seq<TimelineStep>, done: bool)
    requires Staged(t, done)
    ensures CompletedCount(t) == (if done then |t| else |t| - 2)
  {
    assert t[0..] == t;
    CountFrom(t, 0);
    CountFrom(t, 1);
    CountFrom(t, 2);
    CountFrom(t, 3);
    if |t| == 5 {
      CountFrom(t, 4);
    }
    assert t[|t|..] == [];
  }

  /** In such a timeline no completed step follows a pending one. */
  lemma StagedOrder(t: seq<TimelineStep>, done: bool)
    requires Staged(t, done)
    ensures forall i, j :: 0 <= i < j < |t| && t[j].completed ==> t[i].completed
  {
  }

  /** Counting the completed steps one step at a time. */
  lemma CountStep(t: seq<TimelineStep>)
    requires t != []
    ensures CompletedCount(t) == (if t[0].completed then 1 else 0) + CompletedCount(t[1..])
  {
  }

  /** Counting the completed steps of the suffix from `k` one step at a time. */
  lemma CountFrom(t: seq<TimelineStep>, k: nat)
    requires k < |t|
    ensures CompletedCount(t[k..]) == (if t[k].completed then 1 else 0) + CompletedCount(t[k + 1..])
  {
    CountStep(t[k..]);
    assert t[k..][1..] == t[k + 1..];
  }

  /** `found.assignedOfficer || {...}`'s default: the department, or the category when the
   *  department is absent or empty. */
  function DefaultOfficer(c: Complaint): Officer {
    var unit := if c.department.Some? && c.department.value != "" then c.department.value else c.category;
    Officer("Officer Assigned", unit + " Department", "+91 XXXXX XXXXX")
  }

  // ---------------------------------------------------------------- SLA

  /** Milliseconds left before the 48-hour deadline, never below zero. */
  function RemainingMs(registered: int, now: int): nat {
    if registered + SlaMs - now > 0 then registered + SlaMs - now else 0
  }

  /**
   * `Math.round(remaining * 10)` with `remaining` in hours: the remaining time in tenths of an
   * hour, rounded to the nearest tenth with ties upwards.
   */
  function RemainingTenths(registered: int, now: int): (r: nat)
    ensures r * 360_000 - 180_000 <= RemainingMs(registered, now) < r * 360_000 + 180_000
  {
    (RemainingMs(registered, now) + 180_000) / 360_000
  }

  /**
   * `Math.round(elapsed * 10)` with `elapsed = min(48, 48 - remaining)`: the elapsed time in
   * tenths, rounded to the nearest tenth with ties upwards, and never above 48 hours.
   */
  function ElapsedTenths(registered: int, now: int): (e: int)
    ensures e * 360_000 - 180_000 <= 480 * 360_000 - RemainingMs(registered, now) < e * 360_000 + 180_000
    ensures e <= 480
  {
    480 + (180_000 - RemainingMs(registered, now)) / 360_000
  }

  /**
   * Before rounding the two values add up to 48 hours; after rounding they add up to 48.0 hours,
   * except when the remaining time sits exactly halfway between two tenths, where both round up
   * and the sum is 48.1.
   */
  lemma SlaSum(registered: int, now: int)
    ensures RemainingTenths(registered, now) + ElapsedTenths(registered, now)
         == 480 + (if RemainingMs(registered, now) % 360_000 == 180_000 then 1 else 0)
  {
    var m := RemainingMs(registered, now);
    var q := m / 360_000;
    var rr := m % 360_000;
    assert m == q * 360_000 + rr;
    assert RemainingTenths(registered, now) == q + (if rr >= 180_000 then 1 else 0);
    assert ElapsedTenths(registered, now) + q + (if rr > 180_000 then 1 else 0) == 480;
  }

  /** `slaRemaining <= 12`, in tenths. */
  predicate IsSlaCritical(remainingTenths: int) {
    remainingTenths <= 120
  }

  /** `slaElapsed > 0 ? (slaElapsed / 48) * 100 : 0`, with the elapsed time in tenths. */
  function SlaProgress(elapsedTenths: int): (p: real)
    ensures 0.0 <= p
    ensures elapsedTenths <= 480 ==> p <= 100.0
    ensures p == 0.0 <==> elapsedTenths <= 0
  {
    if elapsedTenths > 0 then (elapsedTenths as real) / 480.0 * 100.0 else 0.0
  }

  /** Once the deadline has passed the page shows 0.0 hours left, 48.0 elapsed, a full bar, and
   *  flags the complaint as critical. */
  lemma OverdueIsCritical(registered: int, now: int)
    requires now >= registered + SlaMs
    ensures RemainingTenths(registered, now) == 0 && IsSlaCritical(RemainingTenths(registered, now))
    ensures ElapsedTenths(registered, now) == 480 && SlaProgress(ElapsedTenths(registered, now)) == 100.0
  {
  }

  /** Exactly when the remaining time rounds to at most 12.0 hours is the complaint critical. */
  lemma CriticalWindow(registered: int, now: int)
    ensures IsSlaCritical(RemainingTenths(registered, now)) <==> RemainingMs(registered, now) < 121 * 360_000 - 180_000
  {
  }

  // ---------------------------------------------------------------- page

  /**
   * What `handleSearchWithId` leaves on the page after looking `id` up in the stored records
   * followed by the unshadowed seeds. A miss clears the record and reports "not found". A hit
   * shows the record unchanged apart from its timeline and officer: its own timeline, or a
   * synthesised one when it has none, and its own officer, or the default one.
   */
  predicate SearchOutcome(stored: seq<Complaint>, seeds: seq<Complaint>, id: string, now: int,
                          complaint: Option<Complaint>, notFound: bool)
  {
    var found := FindById(Merge(stored, seeds), id);
    && (found.None? ==> complaint == None && notFound)
    && (found.Some? ==>
          && !notFound && complaint.Some?
          && complaint.value.(timeline := found.value.timeline, assignedOfficer := found.value.assignedOfficer)
             == found.value
          && (found.value.timeline.Some? ==> complaint.value.timeline == found.value.timeline)
          && (found.value.timeline.None? ==>
                complaint.value.timeline.Some? && DefaultTimelineShape(found.value, now, complaint.value.timeline.value))
          && complaint.value.assignedOfficer == Some(found.value.assignedOfficer.GetOr(DefaultOfficer(found.value))))
  }

  class TrackPage {
    /** The page's seed records: always the tracking seeds. */
    const seeds: seq<Complaint>
    var searchId: string
    var complaint: Option<Complaint>
    var isSearching: bool
    var notFound: bool
    /** Remaining and elapsed SLA time, in tenths of an hour. */
    var slaRemaining: int
    var slaElapsed: int
    var showFeedbackForm: bool
    var feedbackSubmitted: bool

    constructor()
      ensures seeds == TrackSeeds
      ensures searchId == "" && complaint == None && !isSearching && !notFound
      ensures slaRemaining == 0 && slaElapsed == 0 && !showFeedbackForm && !feedbackSubmitted
    {
      seeds := TrackSeeds;
      searchId := "";
      complaint := None;
      isSearching := false;
      notFound := false;
      slaRemaining := 0;
      slaElapsed := 0;
      showFeedbackForm := false;
      feedbackSubmitted := false;
    }

    /** `handleSearchWithId`: the search ends with the outcome above. */
    method HandleSearchWithId(storage: BrowserStorage, id: string, now: int)
      modifies this`complaint, this`notFound, this`isSearching
      ensures !isSearching
      ensures SearchOutcome(storage.complaints, seeds, id, now, complaint, notFound)
    {
      isSearching := true;
      notFound := false;
      var combined := Reconcile(storage.complaints, seeds);
      var found := FindById(combined, id);
      if found.Some? {
        var c := found.value;
        var timeline: seq<TimelineStep>;
        if c.timeline.Some? {
          timeline := c.timeline.value;
        } else {
          timeline := GenerateDefaultTimeline(c, now);
        }
        complaint := Some(c.(timeline := Some(timeline),
                             assignedOfficer := Some(c.assignedOfficer.GetOr(DefaultOfficer(c)))));
      } else {
        complaint := None;
        notFound := true;
      }
      isSearching := false;
    }

    /** Typing in the search box. */
    method SetSearchId(value: string)
      modifies this`searchId
      ensures searchId == value
    {
      searchId := value;
    }

    /** `handleSearch`: a blank box does nothing; otherwise the box is searched as typed, untrimmed. */
    method HandleSearch(storage: BrowserStorage, now: int)
      modifies this`complaint, this`notFound, this`isSearching
      ensures IsBlank(searchId) ==>
        complaint == old(complaint) && notFound == old(notFound) && isSearching == old(isSearching)
      ensures !IsBlank(searchId) ==>
        !isSearching && SearchOutcome(storage.complaints, seeds, searchId, now, complaint, notFound)
    {
      if !IsBlank(searchId) {
        HandleSearchWithId(storage, searchId, now);
      }
    }

    /** The effect of an `id` query parameter: a non-empty value is put in the box and searched. */
    method OpenWithParam(storage: BrowserStorage, idParam: Option<string>, now: int)
      modifies this`searchId, this`complaint, this`notFound, this`isSearching
      ensures idParam.None? || idParam.value == "" ==>
        && searchId == old(searchId) && complaint == old(complaint)
        && notFound == old(notFound) && isSearching == old(isSearching)
      ensures idParam.Some? && idParam.value != "" ==>
        && searchId == idParam.value && !isSearching
        && SearchOutcome(storage.complaints, seeds, idParam.value, now, complaint, notFound)
    {
      if idParam.Some? && idParam.value != "" {
        searchId := idParam.value;
        HandleSearchWithId(storage, idParam.value, now);
      }
    }

    /** One evaluation of `updateSLA`: nothing happens without a record or a registration date. */
    method UpdateSla(now: int)
      modifies this`slaRemaining, this`slaElapsed
      ensures complaint.Some? && complaint.value.registeredDate.Some? ==>
        var registered := complaint.value.registeredDate.value;
        slaRemaining == RemainingTenths(registered, now) && slaElapsed == ElapsedTenths(registered, now)
      ensures complaint.None? || complaint.value.registeredDate.None? ==>
        slaRemaining == old(slaRemaining) && slaElapsed == old(slaElapsed)
    {
      if complaint.Some? && complaint.value.registeredDate.Some? {
        var registered := complaint.value.registeredDate.value;
        slaRemaining := RemainingTenths(registered, now);
        slaElapsed := ElapsedTenths(registered, now);
      }
    }

    /**
     * The feedback-prompt effect. For a record whose status is exactly "resolved", while no
     * feedback has been recorded on this page: open the form if the ledger has no entry for the
     * record, otherwise remember that feedback exists.
     */
    method FeedbackPromptEffect(storage: BrowserStorage)
      modifies this`showFeedbackForm, this`feedbackSubmitted
      ensures var due := complaint.Some? && complaint.value.status == "resolved" && !old(feedbackSubmitted);
        && (due && !HasFeedback(storage.complaintFeedback, complaint.value.id) ==>
              showFeedbackForm && feedbackSubmitted == old(feedbackSubmitted))
        && (due && HasFeedback(storage.complaintFeedback, complaint.value.id) ==>
              feedbackSubmitted && showFeedbackForm == old(showFeedbackForm))
        && (!due ==> showFeedbackForm == old(showFeedbackForm) && feedbackSubmitted == old(feedbackSubmitted))
    {
      if complaint.Some? && complaint.value.status == "resolved" && !feedbackSubmitted {
        if !HasFeedback(storage.complaintFeedback, complaint.value.id) {
          showFeedbackForm := true;
        } else {
          feedbackSubmitted := true;
        }
      }
    }

    /** The dialog's `onClose`: hide it and never prompt again on this page. */
    method CloseFeedbackForm()
      modifies this`showFeedbackForm, this`feedbackSubmitted
      ensures !showFeedbackForm && feedbackSubmitted
    {
      showFeedbackForm := false;
      feedbackSubmitted := true;
    }
  }
}
