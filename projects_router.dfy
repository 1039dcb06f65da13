/** The backend's projects routes over the collection of stored
    generations: list a user's projects newest first, fetch one, fetch its
    diagram, delete it when the caller owns it, and compute statistics.
    The collection is a sequence in the database's natural order;
    `find_one` and `delete_one` act on the first matching record. */
module ProjectsRouter {
  import opened Text
  import opened Remote
  import opened Http

  /** A stored generation. `mongoId` is the database's `_id`; `pdfFile` is
      absent when the record lacks its diagram bytes; a missing
      `updated_at` is None. */
  datatype Record = Record(
    mongoId: nat, generationId: string, userEmail: string,
    pdfFilename: string, outputFilename: string, targetLanguage: string,
    aiExplanation: string, aiGeneratedCode: string,
    pdfFile: Option<seq<bv8>>, createdAt: int, updatedAt: Option<int>)

  /** A record as the routes return it: without `_id` and `pdf_file`. */
  datatype Project = Project(
    generationId: string, userEmail: string,
    pdfFilename: string, outputFilename: string, targetLanguage: string,
    aiExplanation: string, aiGeneratedCode: string,
    createdAt: int, updatedAt: Option<int>)

  /** The projection `{"_id": 0, "pdf_file": 0}`. */
  function Public(r: Record): Project {
    Project(r.generationId, r.userEmail, r.pdfFilename, r.outputFilename, r.targetLanguage,
            r.aiExplanation, r.aiGeneratedCode, r.createdAt, r.updatedAt)
  }

  /** The records of `email`, in store order, projected. */
  function Owned(records: seq<Record>, email: string): (r: seq<Project>)
    ensures forall p :: p in r ==> p.userEmail == email
    ensures forall i :: 0 <= i < |records| && records[i].userEmail == email ==> Public(records[i]) in r
    ensures forall p :: p in r ==> exists i :: 0 <= i < |records| && records[i].userEmail == email && Public(records[i]) == p
    decreases |records|
  {
    if records == [] then []
    else
      var rest := Owned(records[1..], email);
      assert forall i :: 1 <= i < |records| ==> records[i] == records[1..][i - 1];
      if records[0].userEmail == email then [Public(records[0])] + rest else rest
  }

  /** Sorted by `created_at` descending. */
  predicate NewestFirst(ps: seq<Project>) {
    forall i, j :: 0 <= i < j < |ps| ==> ps[i].createdAt >= ps[j].createdAt
  }

  function InsertByDate(p: Project, ps: seq<Project>): seq<Project>
    decreases |ps|
  {
    if ps == [] then [p]
    else if p.createdAt >= ps[0].createdAt then [p] + ps
    else [ps[0]] + InsertByDate(p, ps[1..])
  }

  /** `.sort("created_at", -1)` as an insertion sort. The database does not
      fix the order of equal dates, so any order consistent with the dates is
      as good; `SortedListing` states the promise. */
  function SortByDate(ps: seq<Project>): seq<Project>
    decreases |ps|
  {
    if ps == [] then [] else InsertByDate(ps[0], SortByDate(ps[1..]))
  }

  /** No project in `ps` is newer than `t`. */
  predicate NoneNewerThan(ps: seq<Project>, t: int) {
    forall k :: 0 <= k < |ps| ==> ps[k].createdAt <= t
  }

  lemma ConsSorted(x: Project, rest: seq<Project>)
    requires NewestFirst(rest) && NoneNewerThan(rest, x.createdAt)
    ensures NewestFirst([x] + rest)
  {
    var r := [x] + rest;
    forall i, j | 0 <= i < j < |r| ensures r[i].createdAt >= r[j].createdAt {
      assert r[j] == rest[j - 1];
      if i > 0 { assert r[i] == rest[i - 1]; }
    }
  }

  lemma {:induction false} InsertBounded(p: Project, ps: seq<Project>, t: int)
    requires NoneNewerThan(ps, t) && p.createdAt <= t
    ensures NoneNewerThan(InsertByDate(p, ps), t)
    decreases |ps|
  {
    if ps != [] && p.createdAt < ps[0].createdAt {
      InsertBounded(p, ps[1..], t);
      var r := InsertByDate(p, ps);
      assert r == [ps[0]] + InsertByDate(p, ps[1..]);
    }
  }

  lemma {:induction false} InsertSorted(p: Project, ps: seq<Project>)
    requires NewestFirst(ps)
    ensures NewestFirst(InsertByDate(p, ps))
    decreases |ps|
  {
    if ps == [] {
    } else if p.createdAt >= ps[0].createdAt {
      ConsSorted(p, ps);
    } else {
      InsertSorted(p, ps[1..]);
      InsertBounded(p, ps[1..], ps[0].createdAt);
      ConsSorted(ps[0], InsertByDate(p, ps[1..]));
    }
  }

  lemma {:induction false} InsertPermutes(p: Project, ps: seq<Project>)
    ensures multiset(InsertByDate(p, ps)) == multiset(ps) + multiset{p}
    decreases |ps|
  {
    if ps != [] && p.createdAt < ps[0].createdAt {
      InsertPermutes(p, ps[1..]);
      assert ps == [ps[0]] + ps[1..];
    }
  }

  /** The sort puts the newest first and neither loses nor adds a project. */
  lemma {:induction false} SortedListing(ps: seq<Project>)
    ensures NewestFirst(SortByDate(ps))
    ensures multiset(SortByDate(ps)) == multiset(ps)
    decreases |ps|
  {
    if ps != [] {
      SortedListing(ps[1..]);
      InsertSorted(ps[0], SortByDate(ps[1..]));
      InsertPermutes(ps[0], SortByDate(ps[1..]));
      assert ps == [ps[0]] + ps[1..];
    }
  }

  /** Position of the first record with `id`, the one `find_one` and `delete_one` use. */
  function Find(records: seq<Record>, id: string): (r: Option<nat>)
    ensures r.Some? ==> r.value < |records| && records[r.value].generationId == id
    ensures r.Some? ==> forall k :: 0 <= k < r.value ==> records[k].generationId != id
    ensures r.None? ==> forall k :: 0 <= k < |records| ==> records[k].generationId != id
    decreases |records|
  {
    if records == [] then None
    else if records[0].generationId == id then Some(0)
    else match Find(records[1..], id)
      case None => None
      case Some(k) => Some(k + 1)
  }

  /** `delete_one`: drops the first record with `id` and reports how many went. */
  function DeleteOne(records: seq<Record>, id: string): (seq<Record>, nat) {
    match Find(records, id)
    case None => (records, 0)
    case Some(i) => (records[..i] + records[i + 1..], 1)
  }

  /** Generation ids are unique in the collection. */
  predicate UniqueIds(records: seq<Record>) {
    forall i, j :: 0 <= i < j < |records| ==> records[i].generationId != records[j].generationId
  }

  /** The answer of a successful delete. */
  datatype Deleted = Deleted(message: string, generationId: string)

  /** The diagram download: its bytes and the file name for the `Content-Disposition` header. */
  datatype PdfDownload = PdfDownload(bytes: seq<bv8>, filename: string)

  /** The integer and boolean fields of `get_project_stats` (the KB sizes are not modelled). */
  datatype ProjectStats = ProjectStats(
    generationId: string, targetLanguage: string,
    codeLines: nat, codeCharacters: nat,
    createdAt: int, updatedAt: Option<int>, hasBeenRefined: bool)

  const NotFound: HttpError := HttpError(404, "Project not found")

  /** The statistics of one record. */
  function StatsOf(id: string, r: Record): (s: ProjectStats)
    ensures s.codeLines == if r.aiGeneratedCode == "" then 0 else Count(r.aiGeneratedCode, '\n') + 1
    ensures s.codeCharacters == |r.aiGeneratedCode|
    ensures s.hasBeenRefined <==> r.updatedAt != Some(r.createdAt)
  {
    var code := r.aiGeneratedCode;
    ProjectStats(id, r.targetLanguage,
                 if code != "" then |Split(code, '\n')| else 0,
                 |code|,
                 r.createdAt, r.updatedAt,
                 Some(r.createdAt) != r.updatedAt)
  }

  class ProjectStore {
    var records: seq<Record>

    constructor (initial: seq<Record>)
      ensures records == initial
    {
      records := initial;
    }

    /** `get_user_projects`: exactly the user's records, newest first, without `_id` and `pdf_file`. */
    function ListProjects(email: string): (r: seq<Project>)
      reads this
      ensures NewestFirst(r)
      ensures multiset(r) == multiset(Owned(records, email))
      ensures forall p :: p in r ==> p.userEmail == email
      ensures forall i :: 0 <= i < |records| && records[i].userEmail == email ==> Public(records[i]) in r
    {
      var r := SortByDate(Owned(records, email));
      SortedListing(Owned(records, email));
      assert forall p :: p in r <==> p in Owned(records, email) by {
        forall p ensures p in r <==> p in Owned(records, email) {
          assert p in r <==> p in multiset(r);
        }
      }
      r
    }

    /** `get_project_by_id`. */
    function GetProject(id: string): (r: Result<Project>)
      reads this
      ensures Find(records, id).None? <==> r == Err(NotFound)
      ensures Find(records, id).Some? ==> r == Ok(Public(records[Find(records, id).value]))
    {
      match Find(records, id)
      case None => Err(NotFound)
      case Some(i) => Ok(Public(records[i]))
    }

    /** `download_pdf` (the lookup; streaming is not modelled). */
    function DownloadPdf(id: string): (r: Result<PdfDownload>)
      reads this
      ensures Find(records, id).None? ==> r == Err(NotFound)
      ensures Find(records, id).Some? && records[Find(records, id).value].pdfFile.None? ==>
                r == Err(HttpError(404, "PDF file not found for this project"))
      ensures Find(records, id).Some? && records[Find(records, id).value].pdfFile.Some? ==>
                r == Ok(PdfDownload(records[Find(records, id).value].pdfFile.value,
                                    records[Find(records, id).value].pdfFilename))
    {
      match Find(records, id)
      case None => Err(NotFound)
      case Some(i) =>
        if records[i].pdfFile.None? then Err(HttpError(404, "PDF file not found for this project"))
        else Ok(PdfDownload(records[i].pdfFile.value, records[i].pdfFilename))
    }

    /** `get_project_stats`. */
    function GetStats(id: string): (r: Result<ProjectStats>)
      reads this
      ensures Find(records, id).None? <==> r == Err(NotFound)
      ensures Find(records, id).Some? ==> r == Ok(StatsOf(id, records[Find(records, id).value]))
    {
      match Find(records, id)
      case None => Err(NotFound)
      case Some(i) => Ok(StatsOf(id, records[i]))
    }

    /** `delete_project`: 404 when absent, 403 when another user owns it
        (the store unchanged in both cases); otherwise the first record with
        that id is removed and every other record stays, in order. */
    method DeleteProject(id: string, email: string) returns (r: Result<Deleted>)
      modifies this
      ensures Find(old(records), id).None? ==> r == Err(NotFound) && records == old(records)
      ensures Find(old(records), id).Some? && old(records)[Find(old(records), id).value].userEmail != email ==>
                r == Err(HttpError(403, "You do not have permission to delete this project")) && records == old(records)
      ensures Find(old(records), id).Some? && old(records)[Find(old(records), id).value].userEmail == email ==>
                r == Ok(Deleted("Project deleted successfully", id))
                && records == old(records)[..Find(old(records), id).value] + old(records)[Find(old(records), id).value + 1..]
    {
      var found := Find(records, id);
      if found.None? {
        return Err(NotFound);
      }
      if records[found.value].userEmail != email {
        return Err(HttpError(403, "You do not have permission to delete this project"));
      }
      var (rest, count) := DeleteOne(records, id);
      records := rest;
      if count == 0 {
        return Err(HttpError(500, "Failed to delete project"));
      }
      r := Ok(Deleted("Project deleted successfully", id));
    }
  }

  /** A listing avoids an id that no record carries. */
  lemma {:induction false} OwnedAvoidsId(records: seq<Record>, email: string, id: string)
    requires forall k :: 0 <= k < |records| ==> records[k].generationId != id
    ensures forall p :: p in Owned(records, email) ==> p.generationId != id
    decreases |records|
  {
    if records != [] {
      OwnedAvoidsId(records[1..], email, id);
    }
  }

  /** With unique ids, once a user's delete succeeded the project is gone
      from that user's next listing, and nothing else of theirs is. */
  lemma DeletedLeavesListing(records: seq<Record>, id: string, email: string)
    requires UniqueIds(records)
    requires Find(records, id).Some? && records[Find(records, id).value].userEmail == email
    ensures var after := DeleteOne(records, id).0;
            && (forall p :: p in Owned(after, email) ==> p.generationId != id)
            && (forall j :: 0 <= j < |records| && records[j].userEmail == email && records[j].generationId != id ==>
                  Public(records[j]) in Owned(after, email))
  {
    var i := Find(records, id).value;
    var after := DeleteOne(records, id).0;
    assert after == records[..i] + records[i + 1..];
    forall k | 0 <= k < |after| ensures after[k].generationId != id {
      if k < i { assert after[k] == records[k]; } else { assert after[k] == records[k + 1]; }
    }
    OwnedAvoidsId(after, email, id);
    forall j | 0 <= j < |records| && records[j].userEmail == email && records[j].generationId != id
      ensures Public(records[j]) in Owned(after, email)
    {
      var k := if j < i then j else j - 1;
      assert after[k] == records[j];
    }
  }
}
