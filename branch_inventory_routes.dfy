/** The branch inventory import routes (routes/branchInventoryRoutes.js):
    the bearer-token guard, the check that the path's branch is the token's
    branch, the creation of an import job and the listing of a branch's
    jobs. `jwt.verify` is a function parameter, the uploaded file is an
    optional value, and the `import_jobs` table is a sequence of rows. */
module BranchInventoryRoutes {
  import opened Common
  import opened Js

  /** `hdr.startsWith('Bearer ') ? hdr.slice(7) : ''` on
      `req.headers.authorization || ''`. */
  function BearerToken(authorization: Option<string>): (token: string)
    ensures token != "" ==> authorization == Some("Bearer " + token)
    ensures authorization.None? ==> token == ""
  {
    var hdr := if authorization.Some? then authorization.value else "";
    if StartsWith(hdr, "Bearer ") then
      assert hdr == "Bearer " + hdr[7..];
      hdr[7..]
    else ""
  }

  /** Whatever follows `Bearer ` is the token. */
  lemma BearerRoundTrip(token: string)
    ensures BearerToken(Some("Bearer " + token)) == token
  {
    assert ("Bearer " + token)[..7] == "Bearer ";
    assert ("Bearer " + token)[7..] == token;
  }

  /** Any other scheme, or a different case, gives no token. */
  lemma OtherSchemesGiveNoToken(token: string)
    ensures BearerToken(Some("bearer " + token)) == ""
    ensures BearerToken(Some("Basic " + token)) == ""
    ensures BearerToken(Some(token)) == "" || |token| > 7
  {
    var lower := "bearer " + token;
    assert lower[0] == 'b';
    var basic := "Basic " + token;
    assert basic[1] == 'a';
  }

  /** `requireBranchAuth`: the token's payload, or `None` for 401.
      `verify` is `jwt.verify`, `None` when it throws. */
  function BranchAuth(authorization: Option<string>, verify: string -> Option<Json>): (r: Option<Json>)
    ensures r.Some? ==> BearerToken(authorization) != "" && r == verify(BearerToken(authorization))
    ensures BearerToken(authorization) == "" ==> r.None?
  {
    var token := BearerToken(authorization);
    if token == "" then None else verify(token)
  }

  /** `!branchId || branchId !== Number(req.user.branch_id)` negated: the
      path parses to a non-zero integer equal to the token's branch. */
  function BranchAllowed(branchParam: string, user: Json): (r: Option<int>)
    ensures r.Some? <==>
      ParseInt(branchParam).Some? && ParseInt(branchParam).value != 0
      && NumberOf(Get(user, "branch_id")) == ParseInt(branchParam)
    ensures r.Some? ==> r == ParseInt(branchParam) && r.value != 0
  {
    var branchId := ParseInt(branchParam);
    if branchId.None? || branchId.value == 0 then None
    else if NumberOf(Get(user, "branch_id")) != branchId then None
    else branchId
  }

  /** A branch id written in decimal reaches its own branch only. */
  lemma OwnBranchOnly(b: int, other: int)
    requires b != 0 && other != b
    ensures BranchAllowed(IntToString(b), JObj(map["branch_id" := JNum(b)])) == Some(b)
    ensures BranchAllowed(IntToString(b), JObj(map["branch_id" := JNum(other)])).None?
  {
    ParseIntOfIntToString(b);
  }

  datatype ImportJob = ImportJob(
    id: int, fileName: string, uploadedBy: Json, status: string,
    rowsTotal: int, rowsSuccess: int, rowsError: int, branchId: int)

  datatype InventoryReply =
    | Unauthorized    // 401
    | Forbidden       // 403
    | FileRequired    // 400
    | JobCreated(job: ImportJob)
    | Jobs(rows: seq<ImportJob>)

  /** `req.file.originalname || \`upload_${Date.now()}.bin\``. */
  function FileName(file: Json, now: int): string {
    var name := Get(file, "originalname");
    if Truthy(name) then ToStr(name) else "upload_" + IntToString(now) + ".bin"
  }

  // ---------------------------------------------------------------------
  // Listing
  // ---------------------------------------------------------------------

  predicate DescendingIds(js: seq<ImportJob>) {
    forall i, j :: 0 <= i < j < |js| ==> js[i].id >= js[j].id
  }

  function OfBranch(jobs: seq<ImportJob>, b: int): (r: seq<ImportJob>)
    ensures forall x :: x in r <==> x in jobs && x.branchId == b
  {
    if jobs == [] then []
    else (if jobs[0].branchId == b then [jobs[0]] else []) + OfBranch(jobs[1..], b)
  }

  function InsertById(x: ImportJob, js: seq<ImportJob>): (r: seq<ImportJob>)
    ensures |r| == |js| + 1
    ensures multiset(r) == multiset(js) + multiset{x}
  {
    if js == [] || js[0].id <= x.id then [x] + js
    else
      assert js == [js[0]] + js[1..];
      [js[0]] + InsertById(x, js[1..])
  }

  /** Inserting into a newest-first list keeps it newest first. */
  lemma {:induction false} InsertByIdOrdered(x: ImportJob, js: seq<ImportJob>)
    requires DescendingIds(js)
    ensures DescendingIds(InsertById(x, js))
    ensures InsertById(x, js)[0] == x || (js != [] && InsertById(x, js)[0] == js[0])
  {
    if !(js == [] || js[0].id <= x.id) {
      var rest := InsertById(x, js[1..]);
      InsertByIdOrdered(x, js[1..]);
      assert js[0].id >= rest[0].id;
      assert InsertById(x, js) == [js[0]] + rest;
    }
  }

  function SortById(js: seq<ImportJob>): (r: seq<ImportJob>)
    ensures DescendingIds(r)
    ensures multiset(r) == multiset(js)
  {
    if js == [] then []
    else
      assert js == [js[0]] + js[1..];
      var rest := SortById(js[1..]);
      InsertByIdOrdered(js[0], rest);
      InsertById(js[0], rest)
  }

  /** `WHERE branch_id = $1 ORDER BY id DESC LIMIT 100`. */
  function JobsListing(jobs: seq<ImportJob>, b: int): (r: seq<ImportJob>)
    ensures |r| <= 100
    ensures DescendingIds(r)
    ensures forall x :: x in r ==> x in jobs && x.branchId == b
  {
    var sorted := SortById(OfBranch(jobs, b));
    var r := if |sorted| <= 100 then sorted else sorted[..100];
    assert forall x :: x in r ==> x in multiset(sorted);
    r
  }

  /** The listing leaves out only jobs no newer than every listed one, and
      leaves out none when the branch has at most 100 jobs. */
  lemma ListingKeepsNewest(jobs: seq<ImportJob>, b: int)
    ensures var sorted := SortById(OfBranch(jobs, b));
      && (|sorted| <= 100 ==> multiset(JobsListing(jobs, b)) == multiset(OfBranch(jobs, b)))
      && (|sorted| > 100 ==> forall i, j :: 0 <= i < 100 <= j < |sorted| ==> JobsListing(jobs, b)[i].id >= sorted[j].id)
  {
  }

  class ImportJobs {
    var jobs: seq<ImportJob>

    constructor (jobs: seq<ImportJob>)
      ensures this.jobs == jobs
    {
      this.jobs := jobs;
    }

    /** `GET /:branchId/import-jobs`: reads only. */
    method List(authorization: Option<string>, verify: string -> Option<Json>, branchParam: string)
      returns (reply: InventoryReply)
      ensures BranchAuth(authorization, verify).None? ==> reply == Unauthorized
      ensures BranchAuth(authorization, verify).Some? ==>
        var b := BranchAllowed(branchParam, BranchAuth(authorization, verify).value);
        reply == if b.None? then Forbidden else Jobs(JobsListing(jobs, b.value))
    {
      var user := BranchAuth(authorization, verify);
      if user.None? {
        return Unauthorized;
      }
      var b := BranchAllowed(branchParam, user.value);
      if b.None? {
        return Forbidden;
      }
      reply := Jobs(JobsListing(jobs, b.value));
    }

    /** `POST /:branchId/import`: a PENDING job with zero counters for the
        path's branch, uploaded by the token's user. `newId` is the id the
        database assigns. */
    method Import(authorization: Option<string>, verify: string -> Option<Json>, branchParam: string,
                  file: Option<Json>, now: int, newId: int)
      returns (reply: InventoryReply)
      modifies this
      ensures BranchAuth(authorization, verify).None? ==> reply == Unauthorized && jobs == old(jobs)
      ensures BranchAuth(authorization, verify).Some?
              && BranchAllowed(branchParam, BranchAuth(authorization, verify).value).None? ==>
        reply == Forbidden && jobs == old(jobs)
      ensures BranchAuth(authorization, verify).Some?
              && BranchAllowed(branchParam, BranchAuth(authorization, verify).value).Some? && file.None? ==>
        reply == FileRequired && jobs == old(jobs)
      ensures reply.JobCreated? <==>
        && file.Some?
        && BranchAuth(authorization, verify).Some?
        && BranchAllowed(branchParam, BranchAuth(authorization, verify).value).Some?
      ensures reply.JobCreated? ==>
        && file.Some?
        && BranchAuth(authorization, verify).Some?
        && var user := BranchAuth(authorization, verify).value;
           BranchAllowed(branchParam, user).Some?
           && reply.job == ImportJob(newId, FileName(file.value, now), Get(user, "id"), "PENDING", 0, 0, 0,
                                     BranchAllowed(branchParam, user).value)
           && jobs == old(jobs) + [reply.job]
      ensures reply.JobCreated? || jobs == old(jobs)
    {
      var user := BranchAuth(authorization, verify);
      if user.None? {
        return Unauthorized;
      }
      var b := BranchAllowed(branchParam, user.value);
      if b.None? {
        return Forbidden;
      }
      if file.None? {
        return FileRequired;
      }
      var job := ImportJob(newId, FileName(file.value, now), Get(user.value, "id"), "PENDING", 0, 0, 0, b.value);
      jobs := jobs + [job];
      reply := JobCreated(job);
    }
  }
}
