/** The saved-resumes hook: a per-session cache (`resumes`, `resumeCount`,
    `loading`) over a remote table of resume rows, with a client-side quota
    of three resumes per user and every change scoped to the signed-in
    owner. The remote table is modelled as a sequence of rows; the
    outcome of each remote call (success or error) is an input. */
module ResumeStore {
  import opened Wrappers
  import opened Seqs
  import opened Strings
  import opened EntryList
  import opened ResumeBuilder

  datatype UserType = Fresher | Experienced

  /** `form_data`: every personal field is optional. */
  datatype ResumeForm = ResumeForm(
    fullName: Option<string>, email: Option<string>, phone: Option<string>,
    summary: Option<string>, skills: Option<string>)

  datatype ProjectFields = ProjectFields(name: string, description: string, technologies: string)
  datatype ProfileLinkFields = ProfileLinkFields(platform: string, url: string)
  datatype AchievementFields = AchievementFields(title: string, description: string)
  datatype CertificationFields = CertificationFields(name: string, issuer: string, date: string)

  /** One row of the `resumes` table. Timestamps are ticks of the server's clock. */
  datatype Resume = Resume(
    id: string,
    userId: string,
    name: string,
    userType: UserType,
    template: string,
    formData: ResumeForm,
    experiences: seq<Entry<ExperienceFields>>,
    education: seq<Entry<EducationFields>>,
    projects: seq<Entry<ProjectFields>>,
    profileLinks: seq<Entry<ProfileLinkFields>>,
    achievements: seq<Entry<AchievementFields>>,
    certifications: seq<Entry<CertificationFields>>,
    internships: seq<Entry<ExperienceFields>>,
    createdAt: nat,
    updatedAt: nat)

  /** What `createResume` is given: a resume without id, owner and timestamps. */
  datatype ResumeDraft = ResumeDraft(
    name: string,
    userType: UserType,
    template: string,
    formData: ResumeForm,
    experiences: seq<Entry<ExperienceFields>>,
    education: seq<Entry<EducationFields>>,
    projects: seq<Entry<ProjectFields>>,
    profileLinks: seq<Entry<ProfileLinkFields>>,
    achievements: seq<Entry<AchievementFields>>,
    certifications: seq<Entry<CertificationFields>>,
    internships: seq<Entry<ExperienceFields>>)

  /** What `updateResume` is given (`Partial<Resume>`): any field may be absent. */
  datatype ResumePatch = ResumePatch(
    id: Option<string>,
    userId: Option<string>,
    name: Option<string>,
    userType: Option<UserType>,
    template: Option<string>,
    formData: Option<ResumeForm>,
    experiences: Option<seq<Entry<ExperienceFields>>>,
    education: Option<seq<Entry<EducationFields>>>,
    projects: Option<seq<Entry<ProjectFields>>>,
    profileLinks: Option<seq<Entry<ProfileLinkFields>>>,
    achievements: Option<seq<Entry<AchievementFields>>>,
    certifications: Option<seq<Entry<CertificationFields>>>,
    internships: Option<seq<Entry<ExperienceFields>>>,
    createdAt: Option<nat>,
    updatedAt: Option<nat>)

  const MaxResumes := 3

  /** The error text by which the server's own quota rejection is recognised. */
  const QuotaMarker := "Maximum of 3 resumes"

  /** Why a call returned `null`/`false`: no signed-in user, the quota, or a
      failed request. */
  datatype StoreError = Unauthenticated | QuotaExceeded | RequestFailed

  /** The server's answer to the insert. */
  datatype InsertResponse = Inserted(id: string, now: nat) | InsertError(message: string)

  /** `error.message.includes('Maximum of 3 resumes')`: the server's own
      quota rejection. */
  function IsQuotaRejection(message: string): (b: bool)
    ensures b <==> exists i :: OccursAt(message, QuotaMarker, i)
  {
    Contains(message, QuotaMarker)
  }

  // ------------------------------------------------------ the remote table

  /** The row the insert stores: the draft's fields, owned by the caller. */
  function NewRow(d: ResumeDraft, owner: string, id: string, now: nat): (r: Resume)
    ensures r.userId == owner && r.id == id && r.createdAt == now && r.updatedAt == now
    ensures r.name == d.name && r.userType == d.userType && r.template == d.template
    ensures r.formData == d.formData && r.experiences == d.experiences && r.education == d.education
    ensures r.projects == d.projects && r.profileLinks == d.profileLinks
    ensures r.achievements == d.achievements && r.certifications == d.certifications
    ensures r.internships == d.internships
  {
    Resume(id, owner, d.name, d.userType, d.template, d.formData, d.experiences, d.education,
           d.projects, d.profileLinks, d.achievements, d.certifications, d.internships, now, now)
  }

  /** A row after the update: the nine content columns the update writes take
      the patch's value when it has one (an absent value is not sent); id,
      owner, user type, template and timestamps are never written. */
  function Patched(row: Resume, p: ResumePatch): (r: Resume)
    ensures r.id == row.id && r.userId == row.userId
    ensures r.userType == row.userType && r.template == row.template
    ensures r.createdAt == row.createdAt && r.updatedAt == row.updatedAt
    ensures r.name == p.name.GetOr(row.name) && r.formData == p.formData.GetOr(row.formData)
    ensures r.experiences == p.experiences.GetOr(row.experiences)
    ensures r.education == p.education.GetOr(row.education)
    ensures r.projects == p.projects.GetOr(row.projects)
    ensures r.profileLinks == p.profileLinks.GetOr(row.profileLinks)
    ensures r.achievements == p.achievements.GetOr(row.achievements)
    ensures r.certifications == p.certifications.GetOr(row.certifications)
    ensures r.internships == p.internships.GetOr(row.internships)
  {
    row.(name := p.name.GetOr(row.name),
         formData := p.formData.GetOr(row.formData),
         experiences := p.experiences.GetOr(row.experiences),
         education := p.education.GetOr(row.education),
         projects := p.projects.GetOr(row.projects),
         profileLinks := p.profileLinks.GetOr(row.profileLinks),
         achievements := p.achievements.GetOr(row.achievements),
         certifications := p.certifications.GetOr(row.certifications),
         internships := p.internships.GetOr(row.internships))
  }

  /** `.eq('id', id).eq('user_id', owner)`. */
  predicate Targets(row: Resume, id: string, owner: string) {
    row.id == id && row.userId == owner
  }

  /** `.eq('user_id', owner)`: the owner's rows, in table order. */
  function OwnedBy(rows: seq<Resume>, owner: string): (r: seq<Resume>)
    ensures forall i :: 0 <= i < |r| ==> r[i] in rows && r[i].userId == owner
    ensures forall i :: 0 <= i < |rows| && rows[i].userId == owner ==> rows[i] in r
  {
    Filter(rows, (row: Resume) => row.userId == owner)
  }

  /** The table after `update(patch).eq('id', id).eq('user_id', owner)`:
      exactly the targeted rows are patched, in place. */
  function UpdatedRows(rows: seq<Resume>, id: string, owner: string, p: ResumePatch): (r: seq<Resume>)
    ensures |r| == |rows|
    ensures forall i :: 0 <= i < |rows| && !Targets(rows[i], id, owner) ==> r[i] == rows[i]
    ensures forall i :: 0 <= i < |rows| && Targets(rows[i], id, owner) ==> r[i] == Patched(rows[i], p)
  {
    if rows == [] then []
    else [if Targets(rows[0], id, owner) then Patched(rows[0], p) else rows[0]]
         + UpdatedRows(rows[1..], id, owner, p)
  }

  /** The table after `delete().eq('id', id).eq('user_id', owner)`: exactly
      the targeted rows are gone; deleting again changes nothing. */
  function DeletedRows(rows: seq<Resume>, id: string, owner: string): (r: seq<Resume>)
    ensures forall i :: 0 <= i < |r| ==> r[i] in rows && !Targets(r[i], id, owner)
    ensures forall i :: 0 <= i < |rows| && !Targets(rows[i], id, owner) ==> rows[i] in r
  {
    Filter(rows, (row: Resume) => !Targets(row, id, owner))
  }

  /** Deleting is idempotent: a second identical delete changes nothing. */
  lemma DeleteIdempotent(rows: seq<Resume>, id: string, owner: string)
    ensures DeletedRows(DeletedRows(rows, id, owner), id, owner) == DeletedRows(rows, id, owner)
  {
    var p := (row: Resume) => !Targets(row, id, owner);
    FilterSubsumed(rows, p, p);
  }

  /** An update issued for one owner leaves every other owner's rows as they were. */
  lemma {:induction false} UpdateIsolation(rows: seq<Resume>, id: string, owner: string, p: ResumePatch, other: string)
    requires other != owner
    ensures OwnedBy(UpdatedRows(rows, id, owner, p), other) == OwnedBy(rows, other)
  {
    if rows != [] {
      UpdateIsolation(rows[1..], id, owner, p, other);
      var r := UpdatedRows(rows, id, owner, p);
      assert r[1..] == UpdatedRows(rows[1..], id, owner, p);
      assert r[0].userId == rows[0].userId;
      assert r[0].userId == other ==> r[0] == rows[0];
    }
  }

  /** A delete issued for one owner leaves every other owner's rows as they were. */
  lemma DeleteIsolation(rows: seq<Resume>, id: string, owner: string, other: string)
    requires other != owner
    ensures OwnedBy(DeletedRows(rows, id, owner), other) == OwnedBy(rows, other)
  {
    FilterSubsumed(rows, (row: Resume) => !Targets(row, id, owner), (row: Resume) => row.userId == other);
  }

  // --------------------------------------------------- the fetched listing

  ghost predicate NewestFirst(s: seq<Resume>) {
    forall i, j :: 0 <= i < j < |s| ==> s[i].updatedAt >= s[j].updatedAt
  }

  function InsertNewestFirst(x: Resume, s: seq<Resume>): (r: seq<Resume>)
    requires NewestFirst(s)
    ensures NewestFirst(r)
    ensures multiset(r) == multiset(s) + multiset{x}
    ensures r[0] == x || (s != [] && r[0] == s[0])
  {
    if s == [] || x.updatedAt >= s[0].updatedAt then
      PrependNewest(x, s);
      [x] + s
    else
      NewestFirstTail(s);
      var t := InsertNewestFirst(x, s[1..]);
      assert s == [s[0]] + s[1..];
      assert s[0].updatedAt >= t[0].updatedAt;
      PrependNewest(s[0], t);
      assert multiset([s[0]] + t) == multiset{s[0]} + multiset(s[1..]) + multiset{x};
      [s[0]] + t
  }

  lemma NewestFirstTail(s: seq<Resume>)
    requires s != [] && NewestFirst(s)
    ensures NewestFirst(s[1..])
  {
    forall i, j | 0 <= i < j < |s| - 1 ensures s[1..][i].updatedAt >= s[1..][j].updatedAt {
      assert s[1..][i] == s[i + 1] && s[1..][j] == s[j + 1];
    }
  }

  /** A row at least as new as the head of a newest-first list can go in front. */
  lemma PrependNewest(a: Resume, t: seq<Resume>)
    requires NewestFirst(t)
    requires t == [] || a.updatedAt >= t[0].updatedAt
    ensures NewestFirst([a] + t)
  {
    var r := [a] + t;
    forall i, j | 0 <= i < j < |r| ensures r[i].updatedAt >= r[j].updatedAt {
      assert r[j] == t[j - 1];
      if i == 0 {
        assert t[0].updatedAt >= t[j - 1].updatedAt;
      } else {
        assert r[i] == t[i - 1];
      }
    }
  }

  /** `.order('updated_at', { ascending: false })`: the same rows, most
      recently updated first (rows with equal timestamps keep no particular
      order on the server; the model fixes one). */
  function SortNewestFirst(s: seq<Resume>): (r: seq<Resume>)
    ensures NewestFirst(r)
    ensures multiset(r) == multiset(s)
  {
    if s == [] then []
    else
      assert s == [s[0]] + s[1..];
      InsertNewestFirst(s[0], SortNewestFirst(s[1..]))
  }

  /** The listing `fetchResumes` receives: exactly the owner's rows, each
      once, newest first. */
  function Fetched(rows: seq<Resume>, owner: string): (r: seq<Resume>)
    ensures NewestFirst(r)
    ensures multiset(r) == multiset(OwnedBy(rows, owner))
    ensures |r| == |OwnedBy(rows, owner)|
    ensures forall i :: 0 <= i < |r| ==> r[i] in rows && r[i].userId == owner
    ensures forall i :: 0 <= i < |rows| && rows[i].userId == owner ==> rows[i] in r
  {
    var owned := OwnedBy(rows, owner);
    var r := SortNewestFirst(owned);
    assert |r| == |multiset(r)| == |multiset(owned)| == |owned|;
    forall i | 0 <= i < |r| ensures r[i] in owned {
      assert r[i] in multiset(r);
    }
    forall i | 0 <= i < |rows| && rows[i].userId == owner ensures rows[i] in r {
      assert rows[i] in multiset(owned);
    }
    r
  }

  /** Saving a draft and listing again shows the saved row to its owner. */
  lemma InsertThenFetch(rows: seq<Resume>, d: ResumeDraft, owner: string, id: string, now: nat)
    ensures NewRow(d, owner, id, now) in Fetched(rows + [NewRow(d, owner, id, now)], owner)
    ensures |Fetched(rows + [NewRow(d, owner, id, now)], owner)| == |Fetched(rows, owner)| + 1
  {
    var row := NewRow(d, owner, id, now);
    var rows' := rows + [row];
    assert rows'[|rows|] == row;
    FilterAppend(rows, [row], (x: Resume) => x.userId == owner);
  }

  // ----------------------------------------------------------------- hook

  /** The remote `resumes` table. */
  class RemoteTable {
    var rows: seq<Resume>

    constructor (rows: seq<Resume>)
      ensures this.rows == rows
    {
      this.rows := rows;
    }
  }

  /** One instance of the hook: the signed-in user (if any), the table it
      talks to, and the cached listing. */
  class ResumesHook {
    const user: Option<string>
    const table: RemoteTable
    var resumes: seq<Resume>
    var loading: bool
    var resumeCount: int

    constructor (user: Option<string>, table: RemoteTable)
      ensures this.user == user && this.table == table
      ensures resumes == [] && loading && resumeCount == 0
    {
      this.user := user;
      this.table := table;
      resumes := [];
      loading := true;
      resumeCount := 0;
    }

    /** The cache after a refetch: replaced by the owner's listing when the
        request succeeded, kept as it was when it failed; loading is over. */
    ghost predicate Refreshed(oldResumes: seq<Resume>, oldCount: int, failed: bool)
      reads this, table
      requires user.Some?
    {
      !loading &&
      if failed then resumes == oldResumes && resumeCount == oldCount
      else resumes == Fetched(table.rows, user.value) && resumeCount == |resumes|
    }

    /** `fetchResumes`; `failed` is whether the select returned an error. */
    method FetchResumes(failed: bool)
      modifies this`resumes, this`resumeCount, this`loading
      ensures user.None? ==> resumes == [] && resumeCount == old(resumeCount) && !loading
      ensures user.Some? ==> Refreshed(old(resumes), old(resumeCount), failed)
    {
      if user.None? {
        resumes := [];
        loading := false;
        return;
      }
      if !failed {
        var data := Fetched(table.rows, user.value);
        resumes := data;
        resumeCount := |data|;
      }
      loading := false;
    }

    /** `canCreateResume`: the client-side quota check, on the cached count. */
    function CanCreateResume(): (ok: bool)
      reads this
      ensures ok <==> resumeCount < 3
    {
      resumeCount < MaxResumes
    }

    /** `createResume`; `response` is the server's answer to the insert and
        `refetchFailed` whether the listing that follows it fails. */
    method CreateResume(d: ResumeDraft, response: InsertResponse, refetchFailed: bool)
      returns (result: Result<Resume, StoreError>)
      modifies this`resumes, this`resumeCount, this`loading, table
      ensures user.None? ==> result == Failure(Unauthenticated)
      ensures user.Some? && old(resumeCount) >= MaxResumes ==> result == Failure(QuotaExceeded)
      ensures result.Failure? ==> table.rows == old(table.rows)
      ensures result.Failure? ==>
                resumes == old(resumes) && resumeCount == old(resumeCount) && loading == old(loading)
      ensures user.Some? && old(resumeCount) < MaxResumes ==>
                match response
                case Inserted(id, now) =>
                  && result == Success(NewRow(d, user.value, id, now))
                  && table.rows == old(table.rows) + [NewRow(d, user.value, id, now)]
                  && Refreshed(old(resumes), old(resumeCount), refetchFailed)
                case InsertError(message) =>
                  result == Failure(if IsQuotaRejection(message) then QuotaExceeded else RequestFailed)
    {
      if user.None? {
        return Failure(Unauthenticated);
      }
      if !CanCreateResume() {
        return Failure(QuotaExceeded);
      }
      match response
      case InsertError(message) =>
        if IsQuotaRejection(message) {
          return Failure(QuotaExceeded);
        }
        return Failure(RequestFailed);
      case Inserted(id, now) =>
        var row := NewRow(d, user.value, id, now);
        table.rows := table.rows + [row];
        FetchResumes(refetchFailed);
        return Success(row);
    }

    /** `updateResume(id, patch)`; `failed` is whether the update returned an
        error (nothing is written then). Success is reported even when no row
        matched. */
    method UpdateResume(id: string, p: ResumePatch, failed: bool, refetchFailed: bool) returns (ok: bool)
      modifies this`resumes, this`resumeCount, this`loading, table
      ensures ok <==> user.Some? && !failed
      ensures !ok ==> table.rows == old(table.rows)
      ensures !ok ==> resumes == old(resumes) && resumeCount == old(resumeCount) && loading == old(loading)
      ensures ok ==> table.rows == UpdatedRows(old(table.rows), id, user.value, p)
      ensures ok ==> Refreshed(old(resumes), old(resumeCount), refetchFailed)
    {
      if user.None? {
        return false;
      }
      if failed {
        return false;
      }
      table.rows := UpdatedRows(table.rows, id, user.value, p);
      FetchResumes(refetchFailed);
      return true;
    }

    /** `deleteResume(id)`, with the same outcome inputs as `UpdateResume`. */
    method DeleteResume(id: string, failed: bool, refetchFailed: bool) returns (ok: bool)
      modifies this`resumes, this`resumeCount, this`loading, table
      ensures ok <==> user.Some? && !failed
      ensures !ok ==> table.rows == old(table.rows)
      ensures !ok ==> resumes == old(resumes) && resumeCount == old(resumeCount) && loading == old(loading)
      ensures ok ==> table.rows == DeletedRows(old(table.rows), id, user.value)
      ensures ok ==> Refreshed(old(resumes), old(resumeCount), refetchFailed)
    {
      if user.None? {
        return false;
      }
      if failed {
        return false;
      }
      table.rows := DeletedRows(table.rows, id, user.value);
      FetchResumes(refetchFailed);
      return true;
    }
  }
}
