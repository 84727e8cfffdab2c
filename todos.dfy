/** The to-do page's form: the `datetime-local` text of the two dates, the
    team-member selection, and the to-do payload sent on create and update. */
module Todos {
  import opened Base
  import opened Text
  import opened Http

  // ---------------------------------------------------------------- dates

  /** The local calendar fields of a `Date`; `month` is 1-based. Seconds and
      milliseconds are folded into `seconds`. */
  datatype DateTime = DateTime(year: int, month: int, day: int, hours: int, minutes: int, seconds: int)

  /** A `Date` object: either a time or the invalid date that `NaN` fields give. */
  datatype JsDate = InvalidDate | ValidDate(fields: DateTime)

  /** Fields that name a real calendar minute. */
  predicate InRange(d: DateTime) {
    1 <= d.month <= 12 && 1 <= d.day <= 31 && 0 <= d.hours <= 23 && 0 <= d.minutes <= 59
  }

  /** `formatDateTimeLocal`: `YYYY-MM-DDTHH:mm` with two-digit month, day,
      hour and minute. An invalid date renders each field as `NaN`. */
  function FormatDateTimeLocal(d: JsDate): string {
    match d
    case InvalidDate => "NaN-NaN-NaNTNaN:NaN"
    case ValidDate(x) =>
      IntToString(x.year) + "-" + Pad2(x.month) + "-" + Pad2(x.day) + "T" + Pad2(x.hours) + ":" + Pad2(x.minutes)
  }

  lemma DigitsHaveNoSeparator(s: string)
    requires forall k | 0 <= k < |s| :: IsDigit(s[k])
    ensures 'T' !in s && '-' !in s && ':' !in s
  {
  }

  lemma YearHasNoSeparator(year: int)
    requires year >= 0
    ensures 'T' !in IntToString(year) && '-' !in IntToString(year) && ':' !in IntToString(year)
  {
    assert AllDigits(NatToString(year));
  }

  /** A number below 100 pads to exactly two digits that read back as it. */
  lemma Pad2Shape(n: nat)
    requires n < 100
    ensures |Pad2(n)| == 2 && IsDigit(Pad2(n)[0]) && IsDigit(Pad2(n)[1]) && NumberOf(Pad2(n)) == Some(n)
  {
    NumberOfPad2(n);
    if n >= 10 {
      assert NatToString(n) == NatToString(n / 10) + [DigitChar(n % 10)];
    }
  }

  /** Where the separators of `a-b-cTd:e` sit when the last four pieces have two characters. */
  lemma LayoutPositions(a: string, b: string, c: string, d: string, e: string)
    requires |b| == 2 && |c| == 2 && |d| == 2 && |e| == 2
    ensures var s := a + "-" + b + "-" + c + "T" + d + ":" + e;
      var n := |a|;
      |s| == n + 12 && s[..n] == a && s[n] == '-' && s[n + 3] == '-' && s[n + 6] == 'T' && s[n + 9] == ':'
      && s[n + 1..n + 3] == b && s[n + 4..n + 6] == c && s[n + 7..n + 9] == d && s[n + 10..] == e
  {
  }

  /** For in-range fields the text has the fixed layout `Y-MM-DDTHH:mm`: the
      year, then two-digit month (counted from 1), day, hour and minute. */
  lemma FormatShape(x: DateTime)
    requires InRange(x)
    ensures var s := FormatDateTimeLocal(ValidDate(x));
      var n := |IntToString(x.year)|;
      |s| == n + 12 && s[..n] == IntToString(x.year)
      && s[n] == '-' && s[n + 3] == '-' && s[n + 6] == 'T' && s[n + 9] == ':'
      && NumberOf(s[n + 1..n + 3]) == Some(x.month) && NumberOf(s[n + 4..n + 6]) == Some(x.day)
      && NumberOf(s[n + 7..n + 9]) == Some(x.hours) && NumberOf(s[n + 10..]) == Some(x.minutes)
  {
    Pad2Shape(x.month);
    Pad2Shape(x.day);
    Pad2Shape(x.hours);
    Pad2Shape(x.minutes);
    assert FormatDateTimeLocal(ValidDate(x))
      == IntToString(x.year) + "-" + Pad2(x.month) + "-" + Pad2(x.day) + "T" + Pad2(x.hours) + ":" + Pad2(x.minutes);
    LayoutPositions(IntToString(x.year), Pad2(x.month), Pad2(x.day), Pad2(x.hours), Pad2(x.minutes));
  }

  /** `Number(parts[i])`, where a missing part is `undefined` and gives `NaN`. */
  function NumberAt(parts: seq<string>, i: nat): Option<int> {
    if i < |parts| then NumberOf(parts[i]) else None
  }

  /** `new Date(year, month - 1, day, hours, minutes)`: a year from 0 to 99
      means 1900 plus that year. */
  function MakeDate(year: int, month: int, day: int, hours: int, minutes: int): (r: DateTime)
    ensures r.month == month && r.day == day && r.hours == hours && r.minutes == minutes && r.seconds == 0
    ensures r.year == (if 0 <= year <= 99 then year + 1900 else year)
  {
    DateTime(if 0 <= year <= 99 then year + 1900 else year, month, day, hours, minutes, 0)
  }

  /** `parseDateTimeLocal`: split at `T`, the date at `-` and the time at `:`.
      Text without a `T` throws (`time` is undefined); a field that does not
      read as a number makes the invalid date. */
  function ParseDateTimeLocal(value: string): (r: Result<JsDate, Failure>)
    ensures r.Err? <==> 'T' !in value
    ensures r.Ok? && r.value.ValidDate? ==> r.value.fields.seconds == 0
  {
    var parts := Split(value, 'T');
    if |parts| < 2 then
      SplitJoin(value, 'T');
      Err(TypeError)
    else
      assert 'T' in value by {
        SplitJoin(value, 'T');
        assert Join(parts, 'T') == parts[0] + ['T'] + Join(parts[1..], 'T');
        assert Join(parts, 'T')[|parts[0]|] == 'T';
      }
      var date := Split(parts[0], '-');
      var time := Split(parts[1], ':');
      var year := NumberAt(date, 0);
      var month := NumberAt(date, 1);
      var day := NumberAt(date, 2);
      var hours := NumberAt(time, 0);
      var minutes := NumberAt(time, 1);
      if year.None? || month.None? || day.None? || hours.None? || minutes.None? then Ok(InvalidDate)
      else Ok(ValidDate(MakeDate(year.value, month.value, day.value, hours.value, minutes.value)))
  }

  /** A character that is in none of three pieces is not in their join with another separator. */
  lemma NotInJoin(a: string, b: string, c: string, sep: char, x: char)
    requires x !in a && x !in b && x !in c && x != sep
    ensures x !in a + [sep] + b + [sep] + c
  {
  }

  /** How `a-b-cTd:e` splits when no piece holds a separator. */
  lemma SplitLayout(a: string, b: string, c: string, d: string, e: string)
    requires 'T' !in a && 'T' !in b && 'T' !in c && 'T' !in d && 'T' !in e
    requires '-' !in a && '-' !in b && '-' !in c && ':' !in d && ':' !in e
    ensures Split(a + "-" + b + "-" + c + "T" + d + ":" + e, 'T') == [a + "-" + b + "-" + c, d + ":" + e]
    ensures Split(a + "-" + b + "-" + c, '-') == [a, b, c]
    ensures Split(d + ":" + e, ':') == [d, e]
  {
    var date, time := a + ['-'] + b + ['-'] + c, d + [':'] + e;
    NotInJoin(a, b, c, '-', 'T');
    NotInJoin(d, e, [], ':', 'T');
    assert d + [':'] + e + [':'] + [] == time + [':'];
    assert a + "-" + b + "-" + c + "T" + d + ":" + e == date + ['T'] + time;
    SplitTwo(date, time, 'T');
    SplitThree(a, b, c, '-');
    SplitTwo(d, e, ':');
  }

  /** Reading `a-b-cTd:e` back when every piece is a number. */
  lemma ParseLayout(a: string, b: string, c: string, d: string, e: string)
    requires 'T' !in a && 'T' !in b && 'T' !in c && 'T' !in d && 'T' !in e
    requires '-' !in a && '-' !in b && '-' !in c && ':' !in d && ':' !in e
    requires NumberOf(a).Some? && NumberOf(b).Some? && NumberOf(c).Some? && NumberOf(d).Some? && NumberOf(e).Some?
    ensures ParseDateTimeLocal(a + "-" + b + "-" + c + "T" + d + ":" + e)
      == Ok(ValidDate(MakeDate(NumberOf(a).value, NumberOf(b).value, NumberOf(c).value,
                               NumberOf(d).value, NumberOf(e).value)))
  {
    SplitLayout(a, b, c, d, e);
  }

  /** A padded field holds no separator and reads back as the field. */
  lemma Pad2Part(n: nat)
    requires n < 100
    ensures 'T' !in Pad2(n) && '-' !in Pad2(n) && ':' !in Pad2(n) && NumberOf(Pad2(n)) == Some(n)
  {
    Pad2Shape(n);
    DigitsHaveNoSeparator(Pad2(n));
  }

  /** The parts of an in-range date's text: no separators, and each reads back as its field. */
  lemma FormatParts(x: DateTime)
    requires InRange(x) && x.year >= 0
    ensures var y, mo, d, h, mi := IntToString(x.year), Pad2(x.month), Pad2(x.day), Pad2(x.hours), Pad2(x.minutes);
      'T' !in y && 'T' !in mo && 'T' !in d && 'T' !in h && 'T' !in mi
      && '-' !in y && '-' !in mo && '-' !in d && ':' !in h && ':' !in mi
      && NumberOf(y) == Some(x.year) && NumberOf(mo) == Some(x.month) && NumberOf(d) == Some(x.day)
      && NumberOf(h) == Some(x.hours) && NumberOf(mi) == Some(x.minutes)
  {
    YearHasNoSeparator(x.year);
    NumberOfIntToString(x.year);
    Pad2Part(x.month);
    Pad2Part(x.day);
    Pad2Part(x.hours);
    Pad2Part(x.minutes);
  }

  /** The picker's text reads back as the same minute, seconds dropped,
      for every year from 100 on. */
  lemma RoundTrip(x: DateTime)
    requires InRange(x) && x.year >= 100
    ensures ParseDateTimeLocal(FormatDateTimeLocal(ValidDate(x))) == Ok(ValidDate(x.(seconds := 0)))
  {
    FormatParts(x);
    ParseLayout(IntToString(x.year), Pad2(x.month), Pad2(x.day), Pad2(x.hours), Pad2(x.minutes));
  }

  /** The reason the round trip starts at year 100: a two-digit year comes
      back in the twentieth century. */
  lemma TwoDigitYearShifts(x: DateTime)
    requires InRange(x) && 0 <= x.year <= 99
    ensures ParseDateTimeLocal(FormatDateTimeLocal(ValidDate(x))) == Ok(ValidDate(x.(year := x.year + 1900, seconds := 0)))
  {
    FormatParts(x);
    ParseLayout(IntToString(x.year), Pad2(x.month), Pad2(x.day), Pad2(x.hours), Pad2(x.minutes));
  }

  // ---------------------------------------------------------------- defaults

  const HalfHourMs := 30 * 60000

  /** The default start: half an hour after `nowMs`, in local fields. */
  function DefaultStart(nowMs: int, localTime: int -> JsDate): string {
    FormatDateTimeLocal(localTime(nowMs + HalfHourMs))
  }

  /** The default end: half an hour after the default start. */
  function DefaultEnd(nowMs: int, localTime: int -> JsDate): (r: string)
    ensures r == DefaultStart(nowMs + HalfHourMs, localTime)
  {
    FormatDateTimeLocal(localTime(nowMs + HalfHourMs + HalfHourMs))
  }

  // ---------------------------------------------------------------- selection

  /** `toggleTeamMemberSelection`: remove the id wherever it occurs, or append it. */
  function Toggle(selected: seq<int>, id: int): (r: seq<int>)
    ensures id in r <==> id !in selected
    ensures forall x | x != id :: x in r <==> x in selected
  {
    if id in selected then Filter(selected, x => x != id) else selected + [id]
  }

  /** Toggling never makes a repetition. */
  lemma ToggleDistinct(selected: seq<int>, id: int)
    requires Distinct(selected)
    ensures Distinct(Toggle(selected, id))
  {
    if id in selected {
      FilterDistinct(selected, x => x != id);
    } else {
      var r := selected + [id];
      forall i, j | 0 <= i < j < |r| ensures r[i] != r[j] {
        if j == |selected| {
          assert r[i] == selected[i];
        } else {
          assert r[i] == selected[i] && r[j] == selected[j];
        }
      }
    }
  }

  /** Ticking an unticked member and unticking it again restores the selection. */
  lemma ToggleTwiceRestores(selected: seq<int>, id: int)
    requires id !in selected
    ensures Toggle(Toggle(selected, id), id) == selected
  {
    FilterAppend(selected, [id], x => x != id);
    FilterAll(selected, x => x != id);
    assert Filter([id], x => x != id) == [];
  }

  /** Unticking and ticking a member again moves it to the end of the selection. */
  lemma ToggleTwiceMovesToEnd(selected: seq<int>, id: int)
    requires id in selected
    ensures Toggle(Toggle(selected, id), id) == Filter(selected, x => x != id) + [id]
  {
  }

  // ---------------------------------------------------------------- payload

  datatype TaskMember = TaskMember(teamMemberId: int, fullName: string)

  /** A task as the list shows it. */
  datatype Task = Task(
    taskId: int, description: string, startDate: string, endDate: string, isPrivate: bool,
    status: string, caseId: Option<int>, caseTitle: Option<string>, teamMembers: Option<seq<TaskMember>>)

  /** The payload's `case_id`: left out, a number, or `NaN` when the selection does not parse. */
  datatype CaseId = NoCase | CaseNumber(n: int) | CaseNaN

  datatype TaskPayload = TaskPayload(
    description: string, startDate: string, endDate: string, isPrivate: bool,
    caseId: CaseId, teamMemberIds: seq<int>)

  /** `selectedCase !== "none" ? parseInt(selectedCase) : undefined` */
  function CaseIdOf(selectedCase: string): (r: CaseId)
    ensures r == NoCase <==> selectedCase == "none"
    ensures r.CaseNumber? ==> ParseInt(selectedCase) == Some(r.n)
    ensures r == CaseNaN <==> selectedCase != "none" && ParseInt(selectedCase).None?
  {
    if selectedCase == "none" then NoCase
    else match ParseInt(selectedCase)
      case Some(n) => CaseNumber(n)
      case None => CaseNaN
  }

  /** `parseDateTimeLocal(text).toISOString()`; `toIso` renders local fields in
      UTC and an invalid date throws a range error. */
  function IsoOf(text: string, toIso: DateTime -> string): (r: Result<string, Failure>)
    ensures r.Err? <==> ParseDateTimeLocal(text).Err? || ParseDateTimeLocal(text) == Ok(InvalidDate)
    ensures r.Ok? ==> r.value == toIso(ParseDateTimeLocal(text).value.fields)
  {
    match ParseDateTimeLocal(text)
    case Err(e) => Err(e)
    case Ok(InvalidDate) => Err(RangeError)
    case Ok(ValidDate(x)) => Ok(toIso(x))
  }

  /** The to-do data of `handleSubmit` and `handleUpdateTask`. The start date
      is converted first, so its error is the one reported. */
  function BuildPayload(description: string, startDate: string, endDate: string, isPrivate: bool,
                        selectedCase: string, selected: seq<int>, toIso: DateTime -> string): (r: Result<TaskPayload, Failure>)
    ensures r.Ok? <==> IsoOf(startDate, toIso).Ok? && IsoOf(endDate, toIso).Ok?
    ensures IsoOf(startDate, toIso).Err? ==> r == Err(IsoOf(startDate, toIso).error)
    ensures r.Ok? ==> r.value.startDate == IsoOf(startDate, toIso).value && r.value.endDate == IsoOf(endDate, toIso).value
    ensures r.Ok? ==> r.value.description == description && r.value.isPrivate == isPrivate
    ensures r.Ok? ==> r.value.caseId == CaseIdOf(selectedCase) && r.value.teamMemberIds == selected
  {
    match IsoOf(startDate, toIso)
    case Err(e) => Err(e)
    case Ok(start) =>
      match IsoOf(endDate, toIso)
      case Err(e) => Err(e)
      case Ok(end) => Ok(TaskPayload(description, start, end, isPrivate, CaseIdOf(selectedCase), selected))
  }

  /** `task.team_members?.map(m => m.team_member_id)`, in order. */
  function MemberIds(ms: seq<TaskMember>): (r: seq<int>)
    ensures |r| == |ms| && forall i | 0 <= i < |ms| :: r[i] == ms[i].teamMemberId
  {
    if ms == [] then [] else [ms[0].teamMemberId] + MemberIds(ms[1..])
  }

  /** The selection `handleEditTask` loads: the to-do's member ids, or none. */
  function TeamIdsOf(task: Task): (r: seq<int>)
    ensures task.teamMembers.None? ==> r == []
    ensures task.teamMembers.Some? ==> (|r| == |task.teamMembers.value|
      && forall i | 0 <= i < |r| :: r[i] == task.teamMembers.value[i].teamMemberId)
  {
    if task.teamMembers.Some? then MemberIds(task.teamMembers.value) else []
  }

  /** The case selection `handleEditTask` loads: the id's text, or "none" for
      no id and for id 0. */
  function CaseSelectionOf(task: Task): string {
    if task.caseId.Some? && task.caseId.value != 0 then IntToString(task.caseId.value) else "none"
  }

  /** The case selection read back into the payload: editing a task keeps its
      case, except that a case id of 0 is dropped. */
  lemma CaseSelectionRoundTrip(task: Task)
    ensures CaseIdOf(CaseSelectionOf(task))
      == if task.caseId.Some? && task.caseId.value != 0 then CaseNumber(task.caseId.value) else NoCase
  {
    if task.caseId.Some? && task.caseId.value != 0 {
      var t := IntToString(task.caseId.value);
      ParseIntOfIntToString(task.caseId.value);
      assert t != "none" by {
        if task.caseId.value < 0 {
          assert t[0] == '-';
        } else {
          assert IsDigit(t[0]) by { assert AllDigits(NatToString(task.caseId.value)); }
        }
      }
    }
  }

  /** Editing a task and saving it unchanged sends back its own data: the
      description, privacy, case and members, and dates equal to the to-do's
      to the minute. */
  lemma EditThenSave(task: Task, fromIso: string -> JsDate, toIso: DateTime -> string, s: DateTime, e: DateTime)
    requires fromIso(task.startDate) == ValidDate(s) && InRange(s) && s.year >= 100
    requires fromIso(task.endDate) == ValidDate(e) && InRange(e) && e.year >= 100
    ensures BuildPayload(task.description, FormatDateTimeLocal(fromIso(task.startDate)),
                         FormatDateTimeLocal(fromIso(task.endDate)), task.isPrivate,
                         CaseSelectionOf(task), TeamIdsOf(task), toIso)
      == Ok(TaskPayload(task.description, toIso(s.(seconds := 0)), toIso(e.(seconds := 0)), task.isPrivate,
                        if task.caseId.Some? && task.caseId.value != 0 then CaseNumber(task.caseId.value) else NoCase,
                        TeamIdsOf(task)))
  {
    RoundTrip(s);
    RoundTrip(e);
    CaseSelectionRoundTrip(task);
  }

  // ---------------------------------------------------------------- the form

  class TodoForm {
    var description: string
    var startDate: string
    var endDate: string
    var isPrivate: bool
    var selectedCase: string
    var selectedTeamMembers: seq<int>
    var editingTask: Option<Task>
    var showEditForm: bool

    /** The form after a reset: empty text, default dates, nothing selected. */
    predicate IsReset(nowMs: int, localTime: int -> JsDate)
      reads this
    {
      description == "" && startDate == DefaultStart(nowMs, localTime) && endDate == DefaultEnd(nowMs, localTime)
      && !isPrivate && selectedCase == "none" && selectedTeamMembers == []
    }

    /** The page's initial state. */
    constructor()
      ensures description == "" && startDate == "" && endDate == "" && !isPrivate
      ensures selectedCase == "none" && selectedTeamMembers == [] && editingTask == None && !showEditForm
    {
      description := "";
      startDate := "";
      endDate := "";
      isPrivate := false;
      selectedCase := "none";
      selectedTeamMembers := [];
      editingTask := None;
      showEditForm := false;
    }

    /** The signed-in effect: both dates set to their defaults. */
    method SetDefaultDates(nowMs: int, localTime: int -> JsDate)
      modifies this
      ensures startDate == DefaultStart(nowMs, localTime) && endDate == DefaultEnd(nowMs, localTime)
      ensures description == old(description) && isPrivate == old(isPrivate) && selectedCase == old(selectedCase)
      ensures selectedTeamMembers == old(selectedTeamMembers) && editingTask == old(editingTask)
      ensures showEditForm == old(showEditForm)
    {
      var defaultStart := nowMs + HalfHourMs;
      var defaultEnd := defaultStart + HalfHourMs;
      startDate := FormatDateTimeLocal(localTime(defaultStart));
      endDate := FormatDateTimeLocal(localTime(defaultEnd));
    }

    /** The reset shared by create, update and cancel. */
    method ResetForm(nowMs: int, localTime: int -> JsDate)
      modifies this
      ensures IsReset(nowMs, localTime)
      ensures editingTask == old(editingTask) && showEditForm == old(showEditForm)
    {
      description := "";
      SetDefaultDates(nowMs, localTime);
      isPrivate := false;
      selectedCase := "none";
      selectedTeamMembers := [];
    }

    method ToggleTeamMember(id: int)
      modifies this
      ensures selectedTeamMembers == Toggle(old(selectedTeamMembers), id)
      ensures description == old(description) && startDate == old(startDate) && endDate == old(endDate)
      ensures isPrivate == old(isPrivate) && selectedCase == old(selectedCase)
      ensures editingTask == old(editingTask) && showEditForm == old(showEditForm)
    {
      selectedTeamMembers := Toggle(selectedTeamMembers, id);
    }

    /** `handleSubmit`: builds the payload from the form; when it builds and
        the create succeeds (`created`), the form resets. Any failure leaves
        the form as it was. */
    method HandleSubmit(nowMs: int, localTime: int -> JsDate, toIso: DateTime -> string, created: bool)
      returns (payload: Result<TaskPayload, Failure>)
      modifies this
      ensures payload == BuildPayload(old(description), old(startDate), old(endDate), old(isPrivate),
                                      old(selectedCase), old(selectedTeamMembers), toIso)
      ensures payload.Ok? && created ==> IsReset(nowMs, localTime)
      ensures !(payload.Ok? && created) ==> (description == old(description) && startDate == old(startDate)
        && endDate == old(endDate) && isPrivate == old(isPrivate) && selectedCase == old(selectedCase)
        && selectedTeamMembers == old(selectedTeamMembers))
      ensures editingTask == old(editingTask) && showEditForm == old(showEditForm)
    {
      payload := BuildPayload(description, startDate, endDate, isPrivate, selectedCase, selectedTeamMembers, toIso);
      if payload.Ok? && created {
        ResetForm(nowMs, localTime);
      }
    }

    /** `handleEditTask`: loads the to-do into the form. `fromIso` reads the
        task's ISO date strings into local fields. */
    method HandleEditTask(task: Task, fromIso: string -> JsDate)
      modifies this
      ensures editingTask == Some(task) && showEditForm
      ensures description == task.description && isPrivate == task.isPrivate
      ensures startDate == FormatDateTimeLocal(fromIso(task.startDate))
      ensures endDate == FormatDateTimeLocal(fromIso(task.endDate))
      ensures selectedCase == CaseSelectionOf(task) && selectedTeamMembers == TeamIdsOf(task)
    {
      editingTask := Some(task);
      description := task.description;
      startDate := FormatDateTimeLocal(fromIso(task.startDate));
      endDate := FormatDateTimeLocal(fromIso(task.endDate));
      isPrivate := task.isPrivate;
      if task.caseId.Some? && task.caseId.value != 0 {
        selectedCase := IntToString(task.caseId.value);
      } else {
        selectedCase := "none";
      }
      if task.teamMembers.Some? {
        selectedTeamMembers := MemberIds(task.teamMembers.value);
      } else {
        selectedTeamMembers := [];
      }
      showEditForm := true;
    }

    /** `handleUpdateTask`: nothing without a task being edited; otherwise the
        payload goes with the to-do's id, and a successful update (`updated`)
        closes the edit form and resets it. */
    method HandleUpdateTask(nowMs: int, localTime: int -> JsDate, toIso: DateTime -> string, updated: bool)
      returns (sent: Option<(int, Result<TaskPayload, Failure>)>)
      modifies this
      ensures old(editingTask).None? ==> (sent == None && description == old(description)
        && startDate == old(startDate) && endDate == old(endDate) && isPrivate == old(isPrivate)
        && selectedCase == old(selectedCase) && selectedTeamMembers == old(selectedTeamMembers)
        && editingTask == old(editingTask) && showEditForm == old(showEditForm))
      ensures old(editingTask).Some? ==> (
        var payload := BuildPayload(old(description), old(startDate), old(endDate), old(isPrivate),
                                    old(selectedCase), old(selectedTeamMembers), toIso);
        sent == Some((old(editingTask).value.taskId, payload))
        && (payload.Ok? && updated ==> IsReset(nowMs, localTime) && editingTask == None && !showEditForm)
        && (!(payload.Ok? && updated) ==> (description == old(description) && startDate == old(startDate)
              && endDate == old(endDate) && isPrivate == old(isPrivate) && selectedCase == old(selectedCase)
              && selectedTeamMembers == old(selectedTeamMembers) && editingTask == old(editingTask)
              && showEditForm == old(showEditForm))))
    {
      if editingTask.None? {
        return None;
      }
      var taskId := editingTask.value.taskId;
      var payload := BuildPayload(description, startDate, endDate, isPrivate, selectedCase, selectedTeamMembers, toIso);
      sent := Some((taskId, payload));
      if payload.Ok? && updated {
        showEditForm := false;
        editingTask := None;
        ResetForm(nowMs, localTime);
      }
    }

    /** `handleCancelEdit`: closes the edit form and resets it. */
    method HandleCancelEdit(nowMs: int, localTime: int -> JsDate)
      modifies this
      ensures IsReset(nowMs, localTime) && editingTask == None && !showEditForm
    {
      showEditForm := false;
      editingTask := None;
      ResetForm(nowMs, localTime);
    }
  }
}
