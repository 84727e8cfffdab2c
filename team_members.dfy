/** The team-members page: an editable list of rows, some saved (they carry
    the backend's id) and some new, written back on submit. */
module TeamMembers {
  import opened Base
  import opened Text
  import opened Http

  // ---------------------------------------------------------------- rows

  /** One editable row; `id` is the saved member's id, absent for a new row. */
  datatype Row = Row(
    id: Option<int>, firstName: string, lastName: string, designation: string,
    city: string, email: string, mobile: string, userId: Option<int>)

  /** The text fields the form edits. */
  datatype Field = FirstName | LastName | Designation | City | Email | Mobile

  function GetField(row: Row, f: Field): string {
    match f
    case FirstName => row.firstName
    case LastName => row.lastName
    case Designation => row.designation
    case City => row.city
    case Email => row.email
    case Mobile => row.mobile
  }

  /** `row[field] = value` */
  function SetField(row: Row, f: Field, value: string): (r: Row)
    ensures GetField(r, f) == value
    ensures forall g | g != f :: GetField(r, g) == GetField(row, g)
    ensures r.id == row.id && r.userId == row.userId
  {
    match f
    case FirstName => row.(firstName := value)
    case LastName => row.(lastName := value)
    case Designation => row.(designation := value)
    case City => row.(city := value)
    case Email => row.(email := value)
    case Mobile => row.(mobile := value)
  }

  /** The row `addMember` appends. */
  const BlankRow := Row(None, "", "", "", "", "", "", None)

  /** A row with a truthy id is saved; one without, or with id 0, is new. */
  predicate IsSaved(row: Row) {
    row.id.Some? && row.id.value != 0
  }

  predicate IsNew(row: Row) {
    !IsSaved(row)
  }

  // ---------------------------------------------------------------- loading

  datatype UserInfo = UserInfo(userId: int, email: string, fullName: Option<string>, phoneNumber: Option<string>)

  /** A team member as the backend returns it. */
  datatype MemberResponse = MemberResponse(
    teamMemberId: int, userId: int, designation: string, city: string, mobile: string,
    createdAt: string, updatedAt: string, user: UserInfo)

  /** `full_name?.split(' ')[0] || ''` and `full_name?.split(' ')[1] || ''`. */
  function NameParts(fullName: Option<string>): (r: (string, string))
    ensures ' ' !in r.0 && ' ' !in r.1
    ensures fullName.None? ==> r == ("", "")
  {
    match fullName
    case None => ("", "")
    case Some(s) =>
      var parts := Split(s, ' ');
      (parts[0], if |parts| > 1 then parts[1] else "")
  }

  /** The first word becomes the first name and the second the last name;
      a single word leaves the last name empty and any third word is dropped. */
  lemma NamePartsWords(a: string, b: string, c: string)
    requires ' ' !in a && ' ' !in b && ' ' !in c
    ensures NameParts(Some(a)) == (a, "")
    ensures NameParts(Some(a + " " + b)) == (a, b)
    ensures NameParts(Some(a + " " + b + " " + c)) == (a, b)
  {
    SplitNoSep(a, ' ');
    SplitTwo(a, b, ' ');
    SplitThree(a, b, c, ' ');
  }

  /** The row `fetchTeamMembers` makes of a loaded member. */
  function FromResponse(m: MemberResponse): (r: Row)
    ensures r.id == Some(m.teamMemberId) && r.userId == Some(m.userId)
    ensures (r.firstName, r.lastName) == NameParts(m.user.fullName)
    ensures r.designation == m.designation && r.city == m.city && r.email == m.user.email && r.mobile == m.mobile
  {
    var (first, last) := NameParts(m.user.fullName);
    Row(Some(m.teamMemberId), first, last, m.designation, m.city, m.user.email, m.mobile, Some(m.userId))
  }

  function FromResponses(ms: seq<MemberResponse>): (r: seq<Row>)
    ensures |r| == |ms| && forall i | 0 <= i < |ms| :: r[i] == FromResponse(ms[i])
  {
    if ms == [] then [] else [FromResponse(ms[0])] + FromResponses(ms[1..])
  }

  /** `rows.filter((_, i) => i !== index)`, walking the rows with their positions from `from`. */
  function WithoutIndex(rows: seq<Row>, index: int, from: int): (r: seq<Row>)
    ensures from <= index < from + |rows| ==> r == rows[..index - from] + rows[index - from + 1..]
    ensures !(from <= index < from + |rows|) ==> r == rows
    decreases |rows|
  {
    if rows == [] then []
    else
      var rest := WithoutIndex(rows[1..], index, from + 1);
      if from == index then
        assert rest == rows[1..];
        rest
      else
        assert [rows[0]] + rows[1..] == rows;
        [rows[0]] + rest
  }

  // ---------------------------------------------------------------- submit

  /** A request `handleSubmit` makes: an update of a saved member's three
      editable fields, or a create with all six. */
  datatype Call =
    | Update(id: int, designation: string, city: string, mobile: string)
    | Create(firstName: string, lastName: string, designation: string, city: string, email: string, mobile: string)

  function UpdateOf(row: Row): Call {
    Update(GetOr(row.id, 0), row.designation, row.city, row.mobile)
  }

  function CreateOf(row: Row): Call {
    Create(row.firstName, row.lastName, row.designation, row.city, row.email, row.mobile)
  }

  /** The updates, one per saved row in list order. */
  function Updates(rows: seq<Row>): (r: seq<Call>)
    ensures |r| == |Filter(rows, IsSaved)|
    ensures forall i | 0 <= i < |r| :: r[i] == UpdateOf(Filter(rows, IsSaved)[i])
  {
    MapRows(Filter(rows, IsSaved), UpdateOf)
  }

  /** The creates, one per new row in list order. */
  function Creates(rows: seq<Row>): (r: seq<Call>)
    ensures |r| == |Filter(rows, IsNew)|
    ensures forall i | 0 <= i < |r| :: r[i] == CreateOf(Filter(rows, IsNew)[i])
  {
    MapRows(Filter(rows, IsNew), CreateOf)
  }

  function MapRows(rows: seq<Row>, f: Row -> Call): (r: seq<Call>)
    ensures |r| == |rows| && forall i | 0 <= i < |rows| :: r[i] == f(rows[i])
  {
    if rows == [] then [] else [f(rows[0])] + MapRows(rows[1..], f)
  }

  /** Every row is written exactly once: the saved rows and the new rows
      together are all the rows. */
  lemma {:induction false} PartitionCovers(rows: seq<Row>)
    ensures |Filter(rows, IsSaved)| + |Filter(rows, IsNew)| == |rows|
    decreases |rows|
  {
    if rows != [] {
      PartitionCovers(rows[1..]);
    }
  }

  /** Every update names a saved member, and every created row had no id. */
  lemma PartitionSides(rows: seq<Row>)
    ensures forall i | 0 <= i < |Updates(rows)| ::
      Updates(rows)[i].id != 0 && Some(Updates(rows)[i].id) == Filter(rows, IsSaved)[i].id
    ensures forall r | r in Filter(rows, IsNew) :: r in rows && !IsSaved(r)
  {
    forall i | 0 <= i < |Updates(rows)|
      ensures Updates(rows)[i].id != 0 && Some(Updates(rows)[i].id) == Filter(rows, IsSaved)[i].id
    {
      assert Filter(rows, IsSaved)[i] in Filter(rows, IsSaved);
    }
  }

  /** How far the sending gets when it resumes at request `i`: the requests
      go out one at a time and the first one that fails is the last sent;
      `ok` says which requests the backend accepts. */
  function Sent(plan: seq<Call>, ok: Call -> bool, i: nat): (n: nat)
    requires i <= |plan|
    ensures i <= n <= |plan|
    decreases |plan| - i
  {
    if i == |plan| then i else if ok(plan[i]) then Sent(plan, ok, i + 1) else i + 1
  }

  /** The requests sent for a plan, in order. */
  function Issued(plan: seq<Call>, ok: Call -> bool): seq<Call> {
    plan[..Sent(plan, ok, 0)]
  }

  predicate AllOk(plan: seq<Call>, ok: Call -> bool) {
    forall i | 0 <= i < |plan| :: ok(plan[i])
  }

  /** Resuming at `i`: when every later request succeeds all of them are
      sent; otherwise the last one sent is the first that fails. */
  lemma {:induction false} SentStops(plan: seq<Call>, ok: Call -> bool, i: nat)
    requires i <= |plan|
    ensures (forall j | i <= j < |plan| :: ok(plan[j])) ==> Sent(plan, ok, i) == |plan|
    ensures !(forall j | i <= j < |plan| :: ok(plan[j])) ==>
      (i < Sent(plan, ok, i) && !ok(plan[Sent(plan, ok, i) - 1]))
    ensures forall j | i <= j < Sent(plan, ok, i) - 1 :: ok(plan[j])
    decreases |plan| - i
  {
    if i < |plan| && ok(plan[i]) {
      SentStops(plan, ok, i + 1);
    }
  }

  /** When every request succeeds, all of them are sent; otherwise the sending
      stops right after the first failure. */
  lemma IssuedStops(plan: seq<Call>, ok: Call -> bool)
    ensures AllOk(plan, ok) ==> Issued(plan, ok) == plan
    ensures !AllOk(plan, ok) ==> (Issued(plan, ok) != [] && !ok(Issued(plan, ok)[|Issued(plan, ok)| - 1])
      && AllOk(Issued(plan, ok)[..|Issued(plan, ok)| - 1], ok))
  {
    SentStops(plan, ok, 0);
    var n := Sent(plan, ok, 0);
    if AllOk(plan, ok) {
      assert plan[..n] == plan;
    } else {
      var r := Issued(plan, ok);
      assert r[|r| - 1] == plan[n - 1];
      var front := r[..|r| - 1];
      forall j | 0 <= j < |front| ensures ok(front[j]) {
        assert front[j] == plan[j];
      }
    }
  }

  /** Resuming past the end of a first part is sending the second part. */
  lemma {:induction false} SentShift(a: seq<Call>, b: seq<Call>, ok: Call -> bool, j: nat)
    requires j <= |b|
    ensures Sent(a + b, ok, |a| + j) == |a| + Sent(b, ok, j)
    decreases |b| - j
  {
    if j < |b| {
      assert (a + b)[|a| + j] == b[j];
      SentShift(a, b, ok, j + 1);
    }
  }

  /** Resuming inside a first part: the second part is reached only when the
      rest of the first part succeeds. */
  lemma {:induction false} SentAppend(a: seq<Call>, b: seq<Call>, ok: Call -> bool, i: nat)
    requires i <= |a|
    ensures Sent(a + b, ok, i) ==
      if forall j | i <= j < |a| :: ok(a[j]) then |a| + Sent(b, ok, 0) else Sent(a, ok, i)
    decreases |a| - i
  {
    if i == |a| {
      SentShift(a, b, ok, 0);
    } else {
      assert (a + b)[i] == a[i];
      SentAppend(a, b, ok, i + 1);
    }
  }

  /** Sending a plan in two parts: the second part starts only when the first
      went through. */
  lemma IssuedAppend(a: seq<Call>, b: seq<Call>, ok: Call -> bool)
    ensures Issued(a + b, ok) == if AllOk(a, ok) then a + Issued(b, ok) else Issued(a, ok)
  {
    SentAppend(a, b, ok, 0);
    var n := Sent(a + b, ok, 0);
    if AllOk(a, ok) {
      assert (a + b)[..n] == a + b[..Sent(b, ok, 0)];
    } else {
      assert (a + b)[..n] == a[..n];
    }
  }

  /** A plan in two parts succeeds throughout when both parts do. */
  lemma AllOkAppend(a: seq<Call>, b: seq<Call>, ok: Call -> bool)
    ensures AllOk(a + b, ok) <==> AllOk(a, ok) && AllOk(b, ok)
  {
    if AllOk(a + b, ok) {
      forall i | 0 <= i < |a| ensures ok(a[i]) {
        assert (a + b)[i] == a[i];
      }
      forall i | 0 <= i < |b| ensures ok(b[i]) {
        assert (a + b)[|a| + i] == b[i];
      }
    }
  }

  /** The whole submission: the updates first, then the creates. */
  function Plan(rows: seq<Row>): seq<Call> {
    Updates(rows) + Creates(rows)
  }

  lemma AllOkSnoc(plan: seq<Call>, c: Call, ok: Call -> bool)
    requires AllOk(plan, ok) && ok(c)
    ensures AllOk(plan + [c], ok)
  {
    forall j | 0 <= j < |plan + [c]| ensures ok((plan + [c])[j]) {
      if j < |plan| { assert (plan + [c])[j] == plan[j]; }
    }
  }

  /** Sends `batch` in order until a request fails. */
  method SendAll(batch: seq<Call>, ok: Call -> bool) returns (sent: seq<Call>, allOk: bool)
    ensures sent == Issued(batch, ok) && (allOk <==> AllOk(batch, ok))
  {
    sent := [];
    var i := 0;
    while i < |batch|
      invariant 0 <= i <= |batch|
      invariant sent == batch[..i] && AllOk(sent, ok)
      invariant Sent(batch, ok, 0) == Sent(batch, ok, i)
    {
      if !ok(batch[i]) {
        return batch[..i + 1], false;
      }
      AllOkSnoc(sent, batch[i], ok);
      assert sent + [batch[i]] == batch[..i + 1];
      sent := sent + [batch[i]];
      i := i + 1;
    }
    assert batch[..i] == batch;
    allOk := true;
  }

  // ---------------------------------------------------------------- the page

  class TeamMembersPage {
    var rows: seq<Row>
    var isLoading: bool
    var isSubmitting: bool

    constructor()
      ensures rows == [] && isLoading && !isSubmitting
    {
      rows := [];
      isLoading := true;
      isSubmitting := false;
    }

    /** `fetchTeamMembers`: a loaded list replaces the rows; a failure keeps them. */
    method FetchTeamMembers(response: Result<seq<MemberResponse>, Failure>)
      modifies this
      ensures rows == (if response.Ok? then FromResponses(response.value) else old(rows))
      ensures !isLoading && isSubmitting == old(isSubmitting)
    {
      isLoading := true;
      if response.Ok? {
        rows := FromResponses(response.value);
      }
      isLoading := false;
    }

    /** `addMember`: one blank row at the end, the others untouched. */
    method AddMember()
      modifies this
      ensures rows == old(rows) + [BlankRow] && rows[..|old(rows)|] == old(rows)
      ensures isLoading == old(isLoading) && isSubmitting == old(isSubmitting)
    {
      rows := rows + [BlankRow];
    }

    /** `removeMember`: a saved row (`memberId` truthy) is deleted on the
        backend, which answers `deleted`, and the list is reloaded from
        `reloaded`; a new row is dropped, but never when it is the only row.
        `deleteCall` is the id the delete request names. */
    method RemoveMember(index: int, memberId: Option<int>, deleted: bool,
                        reloaded: Result<seq<MemberResponse>, Failure>) returns (deleteCall: Option<int>)
      modifies this
      ensures memberId.Some? && memberId.value != 0 ==> (deleteCall == memberId
        && rows == (if deleted && reloaded.Ok? then FromResponses(reloaded.value) else old(rows)))
      ensures !(memberId.Some? && memberId.value != 0) ==> deleteCall == None
      ensures !(memberId.Some? && memberId.value != 0) && |old(rows)| > 1 && 0 <= index < |old(rows)| ==>
        rows == old(rows)[..index] + old(rows)[index + 1..]
      ensures !(memberId.Some? && memberId.value != 0) && (|old(rows)| <= 1 || !(0 <= index < |old(rows)|)) ==>
        rows == old(rows)
      ensures isSubmitting == old(isSubmitting)
      ensures !(memberId.Some? && memberId.value != 0 && deleted) ==> isLoading == old(isLoading)
      ensures memberId.Some? && memberId.value != 0 && deleted ==> !isLoading
    {
      deleteCall := None;
      if memberId.Some? && memberId.value != 0 {
        deleteCall := memberId;
        if deleted {
          FetchTeamMembers(reloaded);
        }
      } else if |rows| > 1 {
        rows := WithoutIndex(rows, index, 0);
      }
    }

    /** `updateMember`: sets one field of one row. An index outside the list
        throws (`ok` is false) and changes nothing. */
    method UpdateMember(index: int, f: Field, value: string) returns (ok: bool)
      modifies this
      ensures ok <==> 0 <= index < |old(rows)|
      ensures ok ==> (|rows| == |old(rows)| && rows[index] == SetField(old(rows)[index], f, value)
        && forall j | 0 <= j < |rows| && j != index :: rows[j] == old(rows)[j])
      ensures !ok ==> rows == old(rows)
      ensures isLoading == old(isLoading) && isSubmitting == old(isSubmitting)
    {
      if !(0 <= index < |rows|) {
        return false;
      }
      var newMembers := rows;
      newMembers := newMembers[index := SetField(newMembers[index], f, value)];
      rows := newMembers;
      ok := true;
    }

    /** `handleSubmit`: updates every saved row, then creates every new row,
        stopping at the first request that fails; when all succeed the list
        is reloaded from `reloaded`. */
    method HandleSubmit(ok: Call -> bool, reloaded: Result<seq<MemberResponse>, Failure>) returns (calls: seq<Call>)
      modifies this
      ensures calls == Issued(Plan(old(rows)), ok)
      ensures AllOk(Plan(old(rows)), ok) ==> (calls == Plan(old(rows))
        && rows == (if reloaded.Ok? then FromResponses(reloaded.value) else old(rows)) && !isLoading)
      ensures !AllOk(Plan(old(rows)), ok) ==> (rows == old(rows) && isLoading == old(isLoading))
      ensures !isSubmitting
    {
      isSubmitting := true;
      var existingMembers := Filter(rows, IsSaved);
      var newMembers := Filter(rows, IsNew);
      var updates := MapRows(existingMembers, UpdateOf);
      var creates := MapRows(newMembers, CreateOf);
      ghost var plan := Plan(rows);
      assert plan == updates + creates;
      IssuedAppend(updates, creates, ok);
      AllOkAppend(updates, creates, ok);
      IssuedStops(plan, ok);
      IssuedStops(updates, ok);
      var updatesOk;
      calls, updatesOk := SendAll(updates, ok);
      if updatesOk {
        var sent, createsOk := SendAll(creates, ok);
        calls := calls + sent;
        if createsOk {
          FetchTeamMembers(reloaded);
        }
      }
      isSubmitting := false;
    }
  }
}
