/** backend/app/models/profile.py and `update_profile` of backend/app/util/profile.py:
    a partial profile update turned into SQL statements, run in one transaction
    against the `profiles` and `internships` tables. */
module Profiles {
  import opened Wrappers
  import opened Text
  import opened Values

  // ------------------------------------------------------------ models/profile.py

  /** `Internship`: one past internship of a profile. */
  datatype Internship = Internship(company: string, role: string, timePeriod: seq<string>)

  /** A field of `ProfileUpdate`: left out of the request, or set (possibly to `None`). */
  datatype Field<T> = Unset | SetTo(v: Option<T>)

  /** `ProfileUpdate`: every field optional, in declaration order. */
  datatype ProfileUpdate = ProfileUpdate(
    fullName: Field<string>,
    major: Field<string>,
    gradYear: Field<int>,
    linkedinLink: Field<string>,
    bio: Field<string>,
    prevInternships: Field<seq<Internship>>)

  /** The fields of `ProfileUpdate`; `Name` is the field's name, which the UPDATE
      also uses as the column name. */
  datatype FieldName = FullName | Major | GradYear | LinkedinLink | Bio | PrevInternships {
    function Name(): string {
      match this
      case FullName => "full_name"
      case Major => "major"
      case GradYear => "grad_year"
      case LinkedinLink => "linkedin_link"
      case Bio => "bio"
      case PrevInternships => "prev_internships"
    }
  }

  /** `ProfileUpdate.model_fields.keys()`, in declaration order. */
  const ProfileUpdateFields: seq<FieldName> := [FullName, Major, GradYear, LinkedinLink, Bio, PrevInternships]

  /** A value of `profile_update.model_dump(exclude_unset=True)`: a column value, or
      the dumped internship list. */
  datatype Dumped = Scalar(v: Value) | InternshipList(items: Option<seq<Internship>>)

  function OptIntValue(o: Option<int>): (v: Value)
    ensures o.None? <==> v == VNone
    ensures o.Some? ==> v == VInt(o.value)
  {
    if o.Some? then VInt(o.value) else VNone
  }

  /** Every key except the internship list holds a column value. */
  predicate WellDumped(data: map<FieldName, Dumped>) {
    forall k :: k in data && k != PrevInternships ==> data[k].Scalar?
  }

  /** Whether the request set the field `f` (pydantic's `model_fields_set`). */
  predicate IsSet(u: ProfileUpdate, f: FieldName) {
    match f
    case FullName => u.fullName.SetTo?
    case Major => u.major.SetTo?
    case GradYear => u.gradYear.SetTo?
    case LinkedinLink => u.linkedinLink.SetTo?
    case Bio => u.bio.SetTo?
    case PrevInternships => u.prevInternships.SetTo?
  }

  /** The dumped value of a set field. */
  function DumpedValue(u: ProfileUpdate, f: FieldName): Dumped
    requires IsSet(u, f)
  {
    match f
    case FullName => Scalar(OptStrValue(u.fullName.v))
    case Major => Scalar(OptStrValue(u.major.v))
    case GradYear => Scalar(OptIntValue(u.gradYear.v))
    case LinkedinLink => Scalar(OptStrValue(u.linkedinLink.v))
    case Bio => Scalar(OptStrValue(u.bio.v))
    case PrevInternships => InternshipList(u.prevInternships.v)
  }

  /** `profile_update.model_dump(exclude_unset=True)`: exactly the fields the request
      set, `None` included. */
  function Dump(u: ProfileUpdate): (data: map<FieldName, Dumped>)
    ensures WellDumped(data)
    ensures forall f :: f in data <==> IsSet(u, f)
  {
    map f | f in ProfileUpdateFields && IsSet(u, f) :: DumpedValue(u, f)
  }

  // ------------------------------------------------------------ the SET clauses

  /** `[f for f in fields if f != x]` */
  function Excluding(fields: seq<FieldName>, x: FieldName): (r: seq<FieldName>)
    ensures x !in r
    ensures forall f :: f in r <==> f in fields && f != x
  {
    if fields == [] then []
    else (if fields[0] == x then [] else [fields[0]]) + Excluding(fields[1..], x)
  }

  /** `allowed_fields`: every declared field but the internship list. */
  function AllowedFields(): seq<FieldName> {
    Excluding(ProfileUpdateFields, PrevInternships)
  }

  /** The fields of `fields` the request set, in the order of `fields`. */
  function SetFields(fields: seq<FieldName>, data: map<FieldName, Dumped>): seq<FieldName> {
    if fields == [] then []
    else
      var f := fields[|fields| - 1];
      SetFields(fields[..|fields| - 1], data) + (if f in data then [f] else [])
  }

  /** `set_clauses` after the loop over `fields`. */
  function Clauses(fields: seq<FieldName>, data: map<FieldName, Dumped>): seq<string> {
    if fields == [] then []
    else
      var f := fields[|fields| - 1];
      Clauses(fields[..|fields| - 1], data) + (if f in data then [f.Name() + " = %s"] else [])
  }

  /** `values` after the loop over `fields`. */
  function ClauseValues(fields: seq<FieldName>, data: map<FieldName, Dumped>): seq<Value>
    requires PrevInternships !in fields && WellDumped(data)
  {
    if fields == [] then []
    else
      var f := fields[|fields| - 1];
      ClauseValues(fields[..|fields| - 1], data) + (if f in data then [data[f].v] else [])
  }

  /** The loop of `update_profile` over `allowed_fields`. */
  method BuildSetClauses(fields: seq<FieldName>, data: map<FieldName, Dumped>) returns (clauses: seq<string>, values: seq<Value>)
    requires PrevInternships !in fields && WellDumped(data)
    ensures clauses == Clauses(fields, data)
    ensures values == ClauseValues(fields, data)
  {
    clauses, values := [], [];
    var i := 0;
    while i < |fields|
      invariant 0 <= i <= |fields|
      invariant clauses == Clauses(fields[..i], data)
      invariant values == ClauseValues(fields[..i], data)
    {
      var field := fields[i];
      assert fields[..i + 1][..i] == fields[..i];
      if field in data {
        clauses := clauses + [field.Name() + " = %s"];
        values := values + [data[field].v];
      }
      i := i + 1;
    }
    assert fields[..i] == fields;
  }

  /** Clause `k` names the `k`-th set field and value `k` is that field's value:
      one clause and one value per set field. */
  lemma {:induction false} ClausesFollowSetFields(fields: seq<FieldName>, data: map<FieldName, Dumped>)
    requires PrevInternships !in fields && WellDumped(data)
    ensures |Clauses(fields, data)| == |SetFields(fields, data)| == |ClauseValues(fields, data)|
    ensures forall k :: 0 <= k < |SetFields(fields, data)| ==>
      Clauses(fields, data)[k] == SetFields(fields, data)[k].Name() + " = %s"
      && SetFields(fields, data)[k] in fields && SetFields(fields, data)[k] in data
      && ClauseValues(fields, data)[k] == data[SetFields(fields, data)[k]].v
  {
    if fields != [] {
      ClausesFollowSetFields(fields[..|fields| - 1], data);
    }
  }

  /** A field gets a clause exactly when it is among `fields` and the request set it. */
  lemma {:induction false} SetFieldsMembers(fields: seq<FieldName>, data: map<FieldName, Dumped>, f: FieldName)
    ensures f in SetFields(fields, data) <==> f in fields && f in data
  {
    if fields != [] {
      var front := fields[..|fields| - 1];
      SetFieldsMembers(front, data, f);
      assert fields == front + [fields[|fields| - 1]];
    }
  }

  /** The set fields keep the order of `fields`: earlier clauses name earlier fields. */
  lemma {:induction false} SetFieldsInOrder(fields: seq<FieldName>, data: map<FieldName, Dumped>, i: nat, j: nat)
    requires i < j < |SetFields(fields, data)|
    ensures exists p, q :: 0 <= p < q < |fields| && fields[p] == SetFields(fields, data)[i] && fields[q] == SetFields(fields, data)[j]
  {
    var front := fields[..|fields| - 1];
    var sf := SetFields(front, data);
    if j < |sf| {
      SetFieldsInOrder(front, data, i, j);
      var p, q :| 0 <= p < q < |front| && front[p] == sf[i] && front[q] == sf[j];
      assert fields[p] == front[p] && fields[q] == front[q];
    } else {
      SetFieldsMembers(front, data, sf[i]);
      var p :| 0 <= p < |front| && front[p] == sf[i];
      assert fields[p] == front[p];
      assert fields[|fields| - 1] == SetFields(fields, data)[j];
    }
  }

  /** The allowed fields are the five column fields, in declaration order. */
  lemma AllowedFieldsAreTheColumns()
    ensures AllowedFields() == [FullName, Major, GradYear, LinkedinLink, Bio]
  {
    var fs := ProfileUpdateFields;
    assert fs[1..][1..][1..][1..][1..][1..] == [];
  }

  // ------------------------------------------------------------ the database

  /** A row of `internships`. */
  datatype InternshipRow = InternshipRow(profileId: int, company: string, role: string, timePeriod: seq<string>)

  /** A statement `update_profile` sends to the database. */
  datatype Statement =
    | CreateProfile(username: string)
    | UpdateProfileRow(sql: string, params: seq<Value>)
    | DeleteInternships(profileId: int)
    | InsertInternships(rows: seq<InternshipRow>)

  /** `f"UPDATE profiles SET {', '.join(set_clauses)} WHERE id = %s"` */
  function UpdateSql(clauses: seq<string>): string {
    "UPDATE profiles SET " + Join(clauses, ", ") + " WHERE id = %s"
  }

  /** The columns the UPDATE assigns, with their new values. */
  function ColumnUpdates(fields: seq<FieldName>, data: map<FieldName, Dumped>): map<string, Value>
    requires PrevInternships !in fields && WellDumped(data)
  {
    if fields == [] then map[]
    else
      var f := fields[|fields| - 1];
      var before := ColumnUpdates(fields[..|fields| - 1], data);
      if f in data then before[f.Name() := data[f].v] else before
  }

  /** Different fields name different columns. */
  lemma NamesDiffer(f: FieldName, g: FieldName)
    requires f != g
    ensures f.Name() != g.Name()
  {
    var a, b := f.Name(), g.Name();
    if |a| == |b| {
      assert a[0] != b[0];
    }
  }

  /** The assigned columns are the columns of the set fields. */
  lemma {:induction false} ColumnUpdatesKeys(fields: seq<FieldName>, data: map<FieldName, Dumped>, c: string)
    requires PrevInternships !in fields && WellDumped(data)
    ensures c in ColumnUpdates(fields, data) <==> exists g :: g in fields && g in data && g.Name() == c
  {
    if fields != [] {
      var front := fields[..|fields| - 1];
      ColumnUpdatesKeys(front, data, c);
      assert fields == front + [fields[|fields| - 1]];
    }
  }

  /** Each set field's column is assigned the value the request gave that field. */
  lemma {:induction false} ColumnUpdatesValues(fields: seq<FieldName>, data: map<FieldName, Dumped>, f: FieldName)
    requires PrevInternships !in fields && WellDumped(data)
    requires f in fields && f in data
    ensures f.Name() in ColumnUpdates(fields, data) && ColumnUpdates(fields, data)[f.Name()] == data[f].v
  {
    var front := fields[..|fields| - 1];
    var last := fields[|fields| - 1];
    assert fields == front + [last];
    if last != f {
      NamesDiffer(last, f);
      ColumnUpdatesValues(front, data, f);
    }
  }

  /** `[(profile_id, i["company"], i["role"], i["time_period"]) for i in prev_internships]` */
  function InternshipRows(profileId: int, items: seq<Internship>): (rows: seq<InternshipRow>)
    ensures |rows| == |items|
    ensures forall k :: 0 <= k < |rows| ==> rows[k] == InternshipRow(profileId, items[k].company, items[k].role, items[k].timePeriod)
  {
    if items == [] then []
    else [InternshipRow(profileId, items[0].company, items[0].role, items[0].timePeriod)] + InternshipRows(profileId, items[1..])
  }

  /** The rows of `rows` that belong to profile `id`, in table order. */
  function RowsOf(rows: seq<InternshipRow>, id: int): seq<InternshipRow> {
    if rows == [] then []
    else (if rows[0].profileId == id then [rows[0]] else []) + RowsOf(rows[1..], id)
  }

  /** `DELETE FROM internships WHERE profile_id = id` */
  function RowsNotOf(rows: seq<InternshipRow>, id: int): (r: seq<InternshipRow>)
    ensures forall k :: 0 <= k < |r| ==> r[k].profileId != id
  {
    if rows == [] then []
    else (if rows[0].profileId == id then [] else [rows[0]]) + RowsNotOf(rows[1..], id)
  }

  /** The two tables, with each profile row kept as its column values. */
  class ProfileDb {
    var profiles: map<int, map<string, Value>>
    var internships: seq<InternshipRow>

    constructor (profiles: map<int, map<string, Value>>, internships: seq<InternshipRow>)
      ensures this.profiles == profiles && this.internships == internships
    {
      this.profiles := profiles;
      this.internships := internships;
    }

    /** `INSERT INTO profiles (user_id) ...` that returned the new id `id`. */
    method AddProfile(id: int)
      modifies this
      ensures profiles == old(profiles)[id := map[]]
      ensures internships == old(internships)
    {
      profiles := profiles[id := map[]];
    }

    /** `UPDATE profiles SET ... WHERE id = %s`: nothing happens when no row has that id. */
    method SetColumns(id: int, columns: map<string, Value>)
      modifies this
      ensures profiles == Assigned(old(profiles), id, columns)
      ensures internships == old(internships)
    {
      profiles := Assigned(profiles, id, columns);
    }

    method DeleteInternshipsOf(id: int)
      modifies this
      ensures internships == RowsNotOf(old(internships), id)
      ensures profiles == old(profiles)
    {
      internships := RowsNotOf(internships, id);
    }

    method InsertInternshipRows(rows: seq<InternshipRow>)
      modifies this
      ensures internships == old(internships) + rows
      ensures profiles == old(profiles)
    {
      internships := internships + rows;
    }

    /** Leaving the connection's `with` block on an exception rolls the transaction back. */
    method Rollback(profiles: map<int, map<string, Value>>, internships: seq<InternshipRow>)
      modifies this
      ensures this.profiles == profiles && this.internships == internships
    {
      this.profiles := profiles;
      this.internships := internships;
    }
  }

  function Assigned(profiles: map<int, map<string, Value>>, id: int, columns: map<string, Value>): map<int, map<string, Value>> {
    if id in profiles then profiles[id := profiles[id] + columns] else profiles
  }

  // ------------------------------------------------------------ update_profile

  /** `if not profile_id`: no stored profile, or the falsy id 0. */
  predicate Truthy(storedId: Option<int>) {
    storedId.Some? && storedId.value != 0
  }

  /** The profile the update applies to: the stored one, or the one just created. */
  function TargetId(storedId: Option<int>, createdId: Option<int>): Option<int> {
    if Truthy(storedId) then storedId else createdId
  }

  /** The request replaces the internships: `update_data.get("prev_internships") is not None`. */
  predicate Replaces(u: ProfileUpdate) {
    u.prevInternships.SetTo? && u.prevInternships.v.Some?
  }

  /** `INSERT INTO profiles ...` when no usable profile id was read. */
  function CreationPart(username: string, storedId: Option<int>): seq<Statement> {
    if Truthy(storedId) then [] else [CreateProfile(username)]
  }

  /** The UPDATE for the set fields among `fields`, if any was set. */
  function UpdatePart(fields: seq<FieldName>, u: ProfileUpdate, id: int): seq<Statement>
    requires PrevInternships !in fields
  {
    var clauses := Clauses(fields, Dump(u));
    if clauses == [] then []
    else [UpdateProfileRow(UpdateSql(clauses), ClauseValues(fields, Dump(u)) + [VInt(id)])]
  }

  /** The DELETE and the bulk INSERT that replace the internships. */
  function InternshipPart(u: ProfileUpdate, id: int): seq<Statement> {
    if Replaces(u) then [DeleteInternships(id), InsertInternships(InternshipRows(id, u.prevInternships.v.value))]
    else []
  }

  /** The statements of a run that nothing interrupts, for the profile `id`, when the
      loop runs over `fields`. */
  function Planned(username: string, storedId: Option<int>, fields: seq<FieldName>, u: ProfileUpdate, id: int): seq<Statement>
    requires PrevInternships !in fields
  {
    CreationPart(username, storedId) + Changes(fields, u, id)
  }

  /** The statements that change an existing profile: the UPDATE, then the internships. */
  function Changes(fields: seq<FieldName>, u: ProfileUpdate, id: int): seq<Statement>
    requires PrevInternships !in fields
  {
    UpdatePart(fields, u, id) + InternshipPart(u, id)
  }

  /** The statements actually sent: up to and including the first one the database rejects. */
  function UpTo(stmts: seq<Statement>, rejects: Statement -> bool): seq<Statement> {
    if stmts == [] then []
    else if rejects(stmts[0]) then [stmts[0]]
    else [stmts[0]] + UpTo(stmts[1..], rejects)
  }

  predicate NoneRejected(stmts: seq<Statement>, rejects: Statement -> bool) {
    forall k :: 0 <= k < |stmts| ==> !rejects(stmts[k])
  }

  lemma {:induction false} UpToAppend(xs: seq<Statement>, ys: seq<Statement>, rejects: Statement -> bool)
    ensures UpTo(xs + ys, rejects) == if NoneRejected(xs, rejects) then xs + UpTo(ys, rejects) else UpTo(xs, rejects)
  {
    if xs != [] {
      assert (xs + ys)[0] == xs[0] && (xs + ys)[1..] == xs[1..] + ys;
      assert [xs[0]] + xs[1..] == xs;
      UpToAppend(xs[1..], ys, rejects);
      if NoneRejected(xs, rejects) {
        assert NoneRejected(xs[1..], rejects) by {
          forall k | 0 <= k < |xs[1..]|
            ensures !rejects(xs[1..][k])
          {
            assert xs[1..][k] == xs[k + 1];
          }
        }
      } else if !rejects(xs[0]) {
        var k :| 0 <= k < |xs| && rejects(xs[k]);
        assert xs[1..][k - 1] == xs[k];
      }
    } else {
      assert xs + ys == ys;
    }
  }

  /** The profile rows after a committed run for the profile `id`. */
  function CommittedProfiles(profiles: map<int, map<string, Value>>, storedId: Option<int>, fields: seq<FieldName>,
                             u: ProfileUpdate, id: int): map<int, map<string, Value>>
    requires PrevInternships !in fields
  {
    UpdatedProfiles(if Truthy(storedId) then profiles else profiles[id := map[]], fields, u, id)
  }

  /** The profile rows after a committed UPDATE of the profile `id`. */
  function UpdatedProfiles(profiles: map<int, map<string, Value>>, fields: seq<FieldName>,
                           u: ProfileUpdate, id: int): map<int, map<string, Value>>
    requires PrevInternships !in fields
  {
    if Clauses(fields, Dump(u)) == [] then profiles
    else Assigned(profiles, id, ColumnUpdates(fields, Dump(u)))
  }

  /** The internship rows after a committed run for the profile `id`. */
  function CommittedInternships(rows: seq<InternshipRow>, u: ProfileUpdate, id: int): seq<InternshipRow> {
    if Replaces(u) then RowsNotOf(rows, id) + InternshipRows(id, u.prevInternships.v.value) else rows
  }

  /** Runs one statement: on rejection the transaction is rolled back and the call
      ends with `None` (the `except` of `update_profile`). */
  method Run(db: ProfileDb, st: Statement, rejects: Statement -> bool, executed: seq<Statement>,
             profiles0: map<int, map<string, Value>>, internships0: seq<InternshipRow>)
    returns (executed': seq<Statement>, ok: bool)
    modifies db
    ensures executed' == executed + [st] && ok == !rejects(st)
    ensures !ok ==> db.profiles == profiles0 && db.internships == internships0
    ensures ok ==> db.profiles == old(db.profiles) && db.internships == old(db.internships)
  {
    executed' := executed + [st];
    ok := !rejects(st);
    if !ok {
      db.Rollback(profiles0, internships0);
    }
  }

  /** `update_profile(user, profile_update)` with its loop running over `fields`.
      `storedId` is what `get_profile_id` read beforehand, `createdId` the id the
      profile INSERT returns (`None` when it returns no row), and `rejects` tells
      which statements the database refuses. The result is the id of the profile
      the closing `get_valid_profile(user)` would be asked for: it stands in for
      that read-back, which is not modelled (as written, `get_valid_profile` ends in
      `None` on every path). */
  method UpdateProfileOver(db: ProfileDb, username: string, storedId: Option<int>, fields: seq<FieldName>,
                           u: ProfileUpdate, createdId: Option<int>, rejects: Statement -> bool)
    returns (r: Option<int>, executed: seq<Statement>)
    requires PrevInternships !in fields
    modifies db
    ensures TargetId(storedId, createdId).None? ==> r == None && executed == [CreateProfile(username)]
    ensures TargetId(storedId, createdId).Some? ==>
      executed == UpTo(Planned(username, storedId, fields, u, TargetId(storedId, createdId).value), rejects)
    ensures r.Some? <==> (TargetId(storedId, createdId).Some?
      && NoneRejected(Planned(username, storedId, fields, u, TargetId(storedId, createdId).value), rejects))
    ensures r.Some? ==> (r == TargetId(storedId, createdId)
      && db.profiles == CommittedProfiles(old(db.profiles), storedId, fields, u, r.value)
      && db.internships == CommittedInternships(old(db.internships), u, r.value))
    ensures r.None? ==> db.profiles == old(db.profiles) && db.internships == old(db.internships)
  {
    var profiles0, internships0 := db.profiles, db.internships;
    var ok;
    executed := [];
    var id: int;
    ghost var creation := CreationPart(username, storedId);
    if !Truthy(storedId) {
      executed, ok := Run(db, CreateProfile(username), rejects, executed, profiles0, internships0);
      if !ok || createdId.None? {
        if createdId.Some? {
          UpToAppend(creation, Changes(fields, u, createdId.value), rejects);
        }
        return None, executed;
      }
      id := createdId.value;
      db.AddProfile(id);
    } else {
      id := storedId.value;
    }
    assert executed == creation && NoneRejected(creation, rejects);
    ghost var changes := Changes(fields, u, id);
    UpToAppend(creation, changes, rejects);
    NoneRejectedAppend(creation, changes, rejects);
    executed, ok := ApplyChanges(db, fields, u, id, rejects, executed, profiles0, internships0);
    if ok {
      r := Some(id);
    } else {
      r := None;
    }
  }

  /** The UPDATE and the internship replacement, for the profile `id`. */
  method ApplyChanges(db: ProfileDb, fields: seq<FieldName>, u: ProfileUpdate, id: int, rejects: Statement -> bool,
                      executed: seq<Statement>, profiles0: map<int, map<string, Value>>, internships0: seq<InternshipRow>)
    returns (executed': seq<Statement>, ok: bool)
    requires PrevInternships !in fields
    modifies db
    ensures executed' == executed + UpTo(Changes(fields, u, id), rejects)
    ensures ok == NoneRejected(Changes(fields, u, id), rejects)
    ensures !ok ==> db.profiles == profiles0 && db.internships == internships0
    ensures ok ==> (db.profiles == UpdatedProfiles(old(db.profiles), fields, u, id)
                    && db.internships == CommittedInternships(old(db.internships), u, id))
  {
    ghost var updating := UpdatePart(fields, u, id);
    ghost var replacing := InternshipPart(u, id);
    executed', ok := SendUpdate(db, fields, u, id, rejects, executed, profiles0, internships0);
    ghost var sent, updated := executed', ok;
    if ok {
      executed', ok := ReplaceInternships(db, u, id, rejects, executed', profiles0, internships0);
    }
    ChainedLog(executed, updating, replacing, rejects, sent, updated, executed', ok);
  }

  /** The log of two statement groups run one after the other, the second only when
      the first went through. */
  lemma ChainedLog(executed: seq<Statement>, xs: seq<Statement>, ys: seq<Statement>, rejects: Statement -> bool,
                   sent: seq<Statement>, sentOk: bool, final: seq<Statement>, finalOk: bool)
    requires sent == executed + UpTo(xs, rejects) && sentOk == NoneRejected(xs, rejects)
    requires !sentOk ==> final == sent && !finalOk
    requires sentOk ==> final == sent + UpTo(ys, rejects) && finalOk == NoneRejected(ys, rejects)
    ensures final == executed + UpTo(xs + ys, rejects)
    ensures finalOk == NoneRejected(xs + ys, rejects)
  {
    UpToAppend(xs, ys, rejects);
    NoneRejectedAppend(xs, ys, rejects);
    if sentOk {
      UpToNoneRejected(xs, rejects);
      var rest := UpTo(ys, rejects);
      assert UpTo(xs + ys, rejects) == xs + rest;
      assert final == executed + xs + rest;
      assert executed + xs + rest == executed + (xs + rest);
    } else {
      assert UpTo(xs + ys, rejects) == UpTo(xs, rejects);
    }
  }

  lemma UpToNoneRejected(xs: seq<Statement>, rejects: Statement -> bool)
    requires NoneRejected(xs, rejects)
    ensures UpTo(xs, rejects) == xs
  {
    UpToAppend(xs, [], rejects);
    assert xs + [] == xs;
  }

  lemma NoneRejectedAppend(xs: seq<Statement>, ys: seq<Statement>, rejects: Statement -> bool)
    ensures NoneRejected(xs + ys, rejects) <==> NoneRejected(xs, rejects) && NoneRejected(ys, rejects)
  {
    if NoneRejected(xs, rejects) && NoneRejected(ys, rejects) {
      forall k | 0 <= k < |xs + ys|
        ensures !rejects((xs + ys)[k])
      {
        if k < |xs| {
          assert (xs + ys)[k] == xs[k];
        } else {
          assert (xs + ys)[k] == ys[k - |xs|];
        }
      }
    }
    if NoneRejected(xs + ys, rejects) {
      forall k | 0 <= k < |xs|
        ensures !rejects(xs[k])
      {
        assert (xs + ys)[k] == xs[k];
      }
      forall k | 0 <= k < |ys|
        ensures !rejects(ys[k])
      {
        assert (xs + ys)[k + |xs|] == ys[k];
      }
    }
  }

  lemma UpToPair(a: Statement, b: Statement, rejects: Statement -> bool)
    ensures UpTo([a, b], rejects) == if rejects(a) then [a] else [a, b]
    ensures NoneRejected([a, b], rejects) <==> !rejects(a) && !rejects(b)
  {
    assert [a, b][1..] == [b];
    assert [b][1..] == [];
    assert UpTo([b], rejects) == [b];
    assert [a] + [b] == [a, b];
    if !NoneRejected([a, b], rejects) {
      var k :| 0 <= k < 2 && rejects([a, b][k]);
    }
  }

  /** The loop over `fields` and the UPDATE it leads to, if any field was set. */
  method SendUpdate(db: ProfileDb, fields: seq<FieldName>, u: ProfileUpdate, id: int, rejects: Statement -> bool,
                    executed: seq<Statement>, profiles0: map<int, map<string, Value>>, internships0: seq<InternshipRow>)
    returns (executed': seq<Statement>, ok: bool)
    requires PrevInternships !in fields
    modifies db
    ensures executed' == executed + UpTo(UpdatePart(fields, u, id), rejects)
    ensures ok == NoneRejected(UpdatePart(fields, u, id), rejects)
    ensures !ok ==> db.profiles == profiles0 && db.internships == internships0
    ensures ok ==> db.internships == old(db.internships)
    ensures ok ==> db.profiles == UpdatedProfiles(old(db.profiles), fields, u, id)
  {
    var data := Dump(u);
    var clauses, values := BuildSetClauses(fields, data);
    executed', ok := executed, true;
    if clauses != [] {
      values := values + [VInt(id)];
      var st := UpdateProfileRow(UpdateSql(clauses), values);
      assert UpdatePart(fields, u, id) == [st];
      executed', ok := Run(db, st, rejects, executed', profiles0, internships0);
      if ok {
        db.SetColumns(id, ColumnUpdates(fields, data));
      }
    }
  }

  /** The DELETE and bulk INSERT that replace the internships, when the request
      carries an internship list. */
  method ReplaceInternships(db: ProfileDb, u: ProfileUpdate, id: int, rejects: Statement -> bool,
                            executed: seq<Statement>, profiles0: map<int, map<string, Value>>, internships0: seq<InternshipRow>)
    returns (executed': seq<Statement>, ok: bool)
    modifies db
    ensures executed' == executed + UpTo(InternshipPart(u, id), rejects)
    ensures ok == NoneRejected(InternshipPart(u, id), rejects)
    ensures !ok ==> db.profiles == profiles0 && db.internships == internships0
    ensures ok ==> db.profiles == old(db.profiles) && db.internships == CommittedInternships(old(db.internships), u, id)
  {
    executed', ok := executed, true;
    if u.prevInternships.SetTo? && u.prevInternships.v.Some? {
      var del := DeleteInternships(id);
      var rows := InternshipRows(id, u.prevInternships.v.value);
      var ins := InsertInternships(rows);
      assert InternshipPart(u, id) == [del, ins];
      UpToPair(del, ins, rejects);
      executed', ok := Run(db, del, rejects, executed', profiles0, internships0);
      if !ok {
        return;
      }
      db.DeleteInternshipsOf(id);
      executed', ok := Run(db, ins, rejects, executed', profiles0, internships0);
      if !ok {
        return;
      }
      db.InsertInternshipRows(rows);
      assert executed + [del] + [ins] == executed + [del, ins];
    } else {
      assert executed + [] == executed;
    }
  }

  /** `update_profile(user, profile_update)`: the loop runs over `allowed_fields`. */
  method UpdateProfile(db: ProfileDb, username: string, storedId: Option<int>, u: ProfileUpdate,
                       createdId: Option<int>, rejects: Statement -> bool)
    returns (r: Option<int>, executed: seq<Statement>)
    modifies db
    ensures TargetId(storedId, createdId).None? ==> r == None && executed == [CreateProfile(username)]
    ensures TargetId(storedId, createdId).Some? ==>
      executed == UpTo(Planned(username, storedId, AllowedFields(), u, TargetId(storedId, createdId).value), rejects)
    ensures r.Some? <==> (TargetId(storedId, createdId).Some?
      && NoneRejected(Planned(username, storedId, AllowedFields(), u, TargetId(storedId, createdId).value), rejects))
    ensures r.Some? ==> (r == TargetId(storedId, createdId)
      && db.profiles == CommittedProfiles(old(db.profiles), storedId, AllowedFields(), u, r.value)
      && db.internships == CommittedInternships(old(db.internships), u, r.value))
    ensures r.None? ==> db.profiles == old(db.profiles) && db.internships == old(db.internships)
  {
    r, executed := UpdateProfileOver(db, username, storedId, AllowedFields(), u, createdId, rejects);
  }

  // ------------------------------------------------------------ properties

  /** The parameter list has one value per SET clause and then the profile id. */
  lemma UpdateParamsMatchClauses(fields: seq<FieldName>, u: ProfileUpdate, id: int, st: Statement)
    requires PrevInternships !in fields
    requires st in UpdatePart(fields, u, id)
    ensures var clauses := Clauses(fields, Dump(u));
      clauses != [] && st.sql == UpdateSql(clauses)
      && |st.params| == |clauses| + 1 && st.params[|clauses|] == VInt(id)
  {
    ClausesFollowSetFields(fields, Dump(u));
  }

  /** The UPDATE is the only kind of statement the field loop contributes, and it is
      missing exactly when no field of `fields` was set. */
  lemma {:induction false} NoUpdateWithoutSetFields(fields: seq<FieldName>, u: ProfileUpdate, id: int)
    requires PrevInternships !in fields
    ensures UpdatePart(fields, u, id) == [] <==> forall f :: f in fields ==> f !in Dump(u)
    ensures forall st :: st in UpdatePart(fields, u, id) ==> st.UpdateProfileRow?
  {
    var data := Dump(u);
    ClausesFollowSetFields(fields, data);
    if SetFields(fields, data) != [] {
      SetFieldsMembers(fields, data, SetFields(fields, data)[0]);
    } else {
      forall f | f in fields
        ensures f !in data
      {
        SetFieldsMembers(fields, data, f);
      }
    }
  }

  /** A request that sets none of the five column fields sends no UPDATE. */
  lemma NoUpdateWithoutColumns(u: ProfileUpdate, id: int)
    requires u.fullName.Unset? && u.major.Unset? && u.gradYear.Unset? && u.linkedinLink.Unset? && u.bio.Unset?
    ensures UpdatePart(AllowedFields(), u, id) == []
  {
    var fs := AllowedFields();
    forall f | f in fs
      ensures f !in Dump(u)
    {
    }
    NoUpdateWithoutSetFields(fs, u, id);
  }

  /** The internship list never becomes a SET clause. */
  lemma InternshipsNeverAClause(u: ProfileUpdate)
    ensures PrevInternships !in SetFields(AllowedFields(), Dump(u))
  {
    SetFieldsMembers(AllowedFields(), Dump(u), PrevInternships);
  }

  /** After a committed run the assigned columns of the target profile hold the
      request's values; its other columns and every other profile are as before. */
  lemma CommittedColumns(profiles: map<int, map<string, Value>>, storedId: Option<int>, fields: seq<FieldName>,
                         u: ProfileUpdate, id: int, f: FieldName, c: string, other: int)
    requires PrevInternships !in fields
    requires Truthy(storedId) && id in profiles && other != id
    ensures var after := CommittedProfiles(profiles, storedId, fields, u, id);
      id in after && (other in after <==> other in profiles)
      && (other in profiles ==> after[other] == profiles[other])
      && (f in fields && f in Dump(u) ==> f.Name() in after[id] && after[id][f.Name()] == Dump(u)[f].v)
      && ((forall g :: g in Dump(u) ==> g.Name() != c) ==>
            (c in after[id] <==> c in profiles[id]) && (c in profiles[id] ==> after[id][c] == profiles[id][c]))
  {
    var data := Dump(u);
    ColumnUpdatesKeys(fields, data, c);
    if f in fields && f in data {
      ColumnUpdatesValues(fields, data, f);
      NoUpdateWithoutSetFields(fields, u, id);
    }
  }

  lemma {:induction false} RowsOfAppend(xs: seq<InternshipRow>, ys: seq<InternshipRow>, id: int)
    ensures RowsOf(xs + ys, id) == RowsOf(xs, id) + RowsOf(ys, id)
  {
    if xs != [] {
      assert (xs + ys)[0] == xs[0] && (xs + ys)[1..] == xs[1..] + ys;
      RowsOfAppend(xs[1..], ys, id);
    } else {
      assert xs + ys == ys;
    }
  }

  lemma {:induction false} RowsOfRowsNotOf(rows: seq<InternshipRow>, id: int, other: int)
    ensures RowsOf(RowsNotOf(rows, id), id) == []
    ensures other != id ==> RowsOf(RowsNotOf(rows, id), other) == RowsOf(rows, other)
  {
    if rows != [] {
      RowsOfRowsNotOf(rows[1..], id, other);
      var head := if rows[0].profileId == id then [] else [rows[0]];
      assert RowsNotOf(rows, id) == head + RowsNotOf(rows[1..], id);
      RowsOfAppend(head, RowsNotOf(rows[1..], id), id);
      RowsOfAppend(head, RowsNotOf(rows[1..], id), other);
    }
  }

  lemma {:induction false} RowsOfOwnRows(id: int, other: int, items: seq<Internship>)
    ensures RowsOf(InternshipRows(id, items), id) == InternshipRows(id, items)
    ensures other != id ==> RowsOf(InternshipRows(id, items), other) == []
  {
    if items != [] {
      RowsOfOwnRows(id, other, items[1..]);
    }
  }

  /** The internships the rows describe, in order. */
  function ItemsOf(rows: seq<InternshipRow>): (items: seq<Internship>)
    ensures |items| == |rows|
  {
    if rows == [] then [] else [Internship(rows[0].company, rows[0].role, rows[0].timePeriod)] + ItemsOf(rows[1..])
  }

  lemma {:induction false} ItemsOfInternshipRows(id: int, items: seq<Internship>)
    ensures ItemsOf(InternshipRows(id, items)) == items
  {
    if items != [] {
      ItemsOfInternshipRows(id, items[1..]);
    }
  }

  /** A request with an internship list leaves the profile with exactly those
      internships, in that order; without one, its internships stay as they were.
      No other profile's internships change. */
  lemma CommittedInternshipsReplace(rows: seq<InternshipRow>, u: ProfileUpdate, id: int, other: int)
    requires other != id
    ensures Replaces(u) ==> ItemsOf(RowsOf(CommittedInternships(rows, u, id), id)) == u.prevInternships.v.value
    ensures !Replaces(u) ==> RowsOf(CommittedInternships(rows, u, id), id) == RowsOf(rows, id)
    ensures RowsOf(CommittedInternships(rows, u, id), other) == RowsOf(rows, other)
  {
    if Replaces(u) {
      var items := u.prevInternships.v.value;
      RowsOfAppend(RowsNotOf(rows, id), InternshipRows(id, items), id);
      RowsOfAppend(RowsNotOf(rows, id), InternshipRows(id, items), other);
      RowsOfRowsNotOf(rows, id, other);
      RowsOfOwnRows(id, other, items);
      ItemsOfInternshipRows(id, items);
      assert RowsOf(CommittedInternships(rows, u, id), id) == [] + InternshipRows(id, items);
      assert [] + InternshipRows(id, items) == InternshipRows(id, items);
      assert RowsOf(CommittedInternships(rows, u, id), other) == RowsOf(rows, other) + [];
      assert RowsOf(rows, other) + [] == RowsOf(rows, other);
    }
  }

  /** After a committed run that had to create the profile, the new profile holds
      exactly the columns of the set fields; every other profile is as before. */
  lemma CreatedColumns(profiles: map<int, map<string, Value>>, storedId: Option<int>, fields: seq<FieldName>,
                       u: ProfileUpdate, id: int, other: int)
    requires PrevInternships !in fields
    requires !Truthy(storedId) && other != id
    ensures var after := CommittedProfiles(profiles, storedId, fields, u, id);
      id in after && after[id] == ColumnUpdates(fields, Dump(u))
      && (other in after <==> other in profiles)
      && (other in profiles ==> after[other] == profiles[other])
  {
    var data := Dump(u);
    var columns := ColumnUpdates(fields, data);
    if Clauses(fields, data) == [] {
      ClausesFollowSetFields(fields, data);
      forall c | c in columns
        ensures false
      {
        ColumnUpdatesKeys(fields, data, c);
        var g :| g in fields && g in data && g.Name() == c;
        SetFieldsMembers(fields, data, g);
      }
      assert columns == map[];
    } else {
      assert map[] + columns == columns;
    }
  }

  /** A missing (or falsy) stored id makes the run start by creating the profile,
      and no other statement creates one. */
  lemma CreationComesFirst(username: string, storedId: Option<int>, fields: seq<FieldName>, u: ProfileUpdate, id: int)
    requires PrevInternships !in fields
    ensures var plan := Planned(username, storedId, fields, u, id);
      (!Truthy(storedId) ==> plan[0] == CreateProfile(username))
      && forall k :: 0 <= k < |plan| && plan[k].CreateProfile? ==> k == 0 && !Truthy(storedId)
  {
    NoUpdateWithoutSetFields(fields, u, id);
  }
}
